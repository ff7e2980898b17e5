/**
 * The kappa-ray emitter part module (kapparay.Modules.ModuleKappaRayEmitter):
 * how a throttle setting becomes a ray count, and how a count is fired in
 * batches of 100, 10 and 1 rays.
 */
module Emitter {
  import opened Common

  // ---------------------------------------------------------------- Ray count

  /** `Math.Ceiling`, on exact reals. */
  function Ceil(x: real): (c: int)
    ensures x <= c as real < x + 1.0
  {
    -((-x).Floor)
  }

  /** The `(int)` cast of a whole double: out of range gives `int.MinValue`, as the x86 conversion does. */
  function ToInt32(x: int): (r: int)
    ensures IsInt32(r)
    ensures IsInt32(x) ==> r == x
    ensures !IsInt32(x) ==> r == MinInt32
  {
    if IsInt32(x) then x else MinInt32
  }

  /**
   * The number of rays one `Irradiate(strength)` fires, given the one random
   * draw in [0, 1) it takes. Below 0.1 the draw decides between one ray and
   * none (the early return, which fires like a count of 0).
   */
  function RayCount(strength: real, draw: real): (count: int)
    ensures IsInt32(count)
    ensures strength < 0.1 ==> count == 0 || count == 1
    ensures strength < 0.1 ==> (count == 1 <==> draw <= strength * 10.0)
  {
    if strength >= 0.1 then ToInt32(Ceil(draw * 10.0 * strength))
    else if draw > strength * 10.0 then 0
    else 1
  }

  /** A draw in [0, 1) gives at most the ceiling of ten times the strength, when that fits in an int. */
  lemma RayCountBounds(strength: real, draw: real)
    requires strength >= 0.1 && 0.0 <= draw < 1.0
    requires Ceil(10.0 * strength) <= MaxInt32
    ensures 0 <= RayCount(strength, draw) <= Ceil(10.0 * strength)
  {
    var x := draw * 10.0 * strength;
    assert 0.0 <= x <= 10.0 * strength;
    CeilMonotonic(x, 10.0 * strength);
    assert 0 <= Ceil(x);
  }

  lemma CeilMonotonic(x: real, y: real)
    requires x <= y
    ensures Ceil(x) <= Ceil(y)
  {
  }

  // ---------------------------------------------------------------- Batches

  /**
   * The batch sizes `Irradiate` passes to `IrradiateOnce`, in order: a 100
   * while more than 1000 remain, then a 10 while more than 100 remain, then
   * single rays for what is left (none for a count below one).
   */
  function Batches(count: int): seq<int>
    decreases if count > 100 then count else 0
  {
    if count > 1000 then [100] + Batches(count - 100)
    else if count > 100 then [10] + Batches(count - 10)
    else Ones(if count > 0 then count else 0)
  }

  function Ones(n: nat): (s: seq<int>)
    ensures |s| == n && forall k :: 0 <= k < n ==> s[k] == 1
  {
    if n == 0 then [] else [1] + Ones(n - 1)
  }

  function Sum(s: seq<int>): int
  {
    if s == [] then 0 else s[0] + Sum(s[1..])
  }

  predicate IsBatchSize(size: int)
  {
    size == 100 || size == 10 || size == 1
  }

  /** The rays fired add up to the count; a count below one fires nothing. */
  lemma {:induction false} BatchesSum(count: int)
    ensures Sum(Batches(count)) == if count > 0 then count else 0
    decreases if count > 100 then count else 0
  {
    if count > 1000 {
      BatchesSum(count - 100);
    } else if count > 100 {
      BatchesSum(count - 10);
    } else {
      OnesSum(if count > 0 then count else 0);
    }
  }

  lemma {:induction false} OnesSum(n: nat)
    ensures Sum(Ones(n)) == n
  {
    if n > 0 {
      OnesSum(n - 1);
    }
  }

  /** Every batch is 100, 10 or 1, and each is at most the one before: all 100s, then 10s, then 1s. */
  lemma {:induction false} BatchesShape(count: int)
    ensures forall k :: 0 <= k < |Batches(count)| ==> IsBatchSize(Batches(count)[k])
    ensures forall i, j :: 0 <= i < j < |Batches(count)| ==> Batches(count)[i] >= Batches(count)[j]
    decreases if count > 100 then count else 0
  {
    if count > 1000 {
      BatchesShape(count - 100);
    } else if count > 100 {
      BatchesShape(count - 10);
      TensThenOnes(count - 10);
    }
  }

  /** Below 1001, no 100-batch is fired. */
  lemma {:induction false} TensThenOnes(count: int)
    requires count <= 1000
    ensures forall k :: 0 <= k < |Batches(count)| ==> Batches(count)[k] <= 10
    decreases if count > 100 then count else 0
  {
    if count > 100 {
      TensThenOnes(count - 10);
    }
  }

  /** The number of 100-batches, and what is left for the 10s and 1s. */
  function Hundreds(count: int): nat
    decreases if count > 1000 then count else 0
  {
    if count > 1000 then 1 + Hundreds(count - 100) else 0
  }

  /** The 100-loop stops with at most 1000 left, and with more than 900 when it ran at all. */
  lemma {:induction false} HundredsPhase(count: int)
    ensures var rest := count - 100 * Hundreds(count);
      && rest <= 1000
      && (count > 1000 ==> rest > 900)
      && Batches(count) == Repeat(100, Hundreds(count)) + Batches(rest)
    decreases if count > 1000 then count else 0
  {
    if count > 1000 {
      HundredsPhase(count - 100);
      assert Repeat(100, Hundreds(count)) == [100] + Repeat(100, Hundreds(count - 100));
    }
  }

  function Repeat(size: int, n: nat): (s: seq<int>)
    ensures |s| == n && forall k :: 0 <= k < n ==> s[k] == size
  {
    if n == 0 then [] else [size] + Repeat(size, n - 1)
  }

  /** The number of single-ray batches. */
  function SingleShots(count: int): int
  {
    multiset(Batches(count))[1]
  }

  /** At most 100 single rays are fired, and between 91 and 100 once the count exceeds 100. */
  lemma {:induction false} SingleShotsBound(count: int)
    ensures 0 <= SingleShots(count) <= 100
    ensures count > 100 ==> 91 <= SingleShots(count)
    ensures count <= 100 ==> SingleShots(count) == (if count > 0 then count else 0)
    decreases if count > 100 then count else 0
  {
    if count > 1000 {
      SingleShotsBound(count - 100);
      assert multiset(Batches(count)) == multiset{100} + multiset(Batches(count - 100));
    } else if count > 100 {
      SingleShotsBound(count - 10);
      assert multiset(Batches(count)) == multiset{10} + multiset(Batches(count - 10));
    } else {
      OnesMultiset(if count > 0 then count else 0);
    }
  }

  lemma {:induction false} OnesMultiset(n: nat)
    ensures multiset(Ones(n))[1] == n
  {
    if n > 0 {
      OnesMultiset(n - 1);
      assert multiset(Ones(n)) == multiset{1} + multiset(Ones(n - 1));
    }
  }

  /** The three batching loops of `Irradiate`. */
  method FireBatches(count: int) returns (batches: seq<int>)
    ensures batches == Batches(count)
  {
    var left := count;
    batches := [];
    while left > 1000
      invariant batches + Batches(left) == Batches(count)
      decreases left
    {
      left := left - 100;
      batches := batches + [100];
    }
    while left > 100
      invariant left <= 1000
      invariant batches + Batches(left) == Batches(count)
      decreases left
    {
      left := left - 10;
      batches := batches + [10];
    }
    while left > 0
      invariant left <= 100
      invariant batches + Ones(if left > 0 then left else 0) == Batches(count)
      decreases left
    {
      left := left - 1;
      batches := batches + [1];
    }
    assert batches + [] == batches;
  }

  /** `Irradiate(strength)`: the batches fired for the given draw. */
  method Irradiate(strength: real, draw: real) returns (batches: seq<int>)
    ensures batches == Batches(RayCount(strength, draw))
    ensures Sum(batches) == if RayCount(strength, draw) > 0 then RayCount(strength, draw) else 0
    ensures strength < 0.1 ==> |batches| <= 1
  {
    var count := 1;
    if strength >= 0.1 {
      count := ToInt32(Ceil(draw * 10.0 * strength));
    } else if draw > strength * 10.0 {
      BatchesSum(0);
      return [];
    }
    batches := FireBatches(count);
    BatchesSum(count);
  }

  // ---------------------------------------------------------------- The part module

  /** The part's engine module, as `OnFixedUpdate` reads it. */
  datatype Engine = Engine(isOperational: bool, requestedThrottle: real)

  /** `FindModuleImplementing<ModuleEngines>` found nothing and the call through it threw. */
  datatype EmitterError = NoEngine

  /** The emission strength: the coefficient per throttle percent, times the throttle in percent. */
  function Strength(throttleCoeff: real, requestedThrottle: real): real
  {
    throttleCoeff * requestedThrottle * 100.0
  }

  /** What one `OnFixedUpdate` fires, or the exception it ends in. */
  function Emission(lastUpdate: real, throttleCoeff: real, engine: Option<Engine>, draw: real): (r: Result<seq<int>, EmitterError>)
    ensures lastUpdate < 0.0 || throttleCoeff <= 0.0 ==> r == Success([])
    ensures r.Failure? <==> lastUpdate >= 0.0 && throttleCoeff > 0.0 && engine.None?
    ensures engine.Some? && !engine.value.isOperational ==> r == Success([])
    ensures lastUpdate >= 0.0 && throttleCoeff > 0.0 && engine.Some? && engine.value.isOperational ==>
      r == Success(Batches(RayCount(Strength(throttleCoeff, engine.value.requestedThrottle), draw)))
  {
    if lastUpdate >= 0.0 && throttleCoeff > 0.0 then
      if engine.None? then Failure(NoEngine)
      else if engine.value.isOperational then
        Success(Batches(RayCount(Strength(throttleCoeff, engine.value.requestedThrottle), draw)))
      else Success([])
    else Success([])
  }

  class ModuleKappaRayEmitter {
    var throttleCoeff: real
    var lastUpdate: real

    constructor (throttleCoeff: real)
      ensures this.throttleCoeff == throttleCoeff && lastUpdate == -1.0
    {
      this.throttleCoeff := throttleCoeff;
      lastUpdate := -1.0;
    }

    /** One physics tick at universal time `t`; the time is recorded unless the tick throws. */
    method OnFixedUpdate(t: real, engine: Option<Engine>, draw: real) returns (r: Result<seq<int>, EmitterError>)
      modifies this`lastUpdate
      ensures r == Emission(old(lastUpdate), throttleCoeff, engine, draw)
      ensures lastUpdate == if r.Success? then t else old(lastUpdate)
    {
      if lastUpdate >= 0.0 {
        if throttleCoeff > 0.0 {
          if engine.None? {
            return Failure(NoEngine);
          }
          var e := engine.value;
          if e.isOperational {
            var strength := Strength(throttleCoeff, e.requestedThrottle);
            var batches := Irradiate(strength, draw);
            lastUpdate := t;
            return Success(batches);
          }
        }
      }
      lastUpdate := t;
      r := Success([]);
    }
  }

  /** A freshly loaded emitter fires nothing on its first tick, and then has a time to compare with. */
  method FirstTickIsQuiet(throttleCoeff: real, t: real, engine: Option<Engine>, draw: real)
    returns (r: Result<seq<int>, EmitterError>, last: real)
    ensures r == Success([])
    ensures last == t
  {
    var emitter := new ModuleKappaRayEmitter(throttleCoeff);
    r := emitter.OnFixedUpdate(t, engine, draw);
    last := emitter.lastUpdate;
  }
}
