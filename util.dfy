/** `kapparay.Util.Clamp`, over any type with a `CompareTo`. */
module KappaUtil {

  /** The comparison result sign, as `IComparable<T>.CompareTo` returns it. */
  function Sign(x: int): int
  {
    if x < 0 then -1 else if x > 0 then 1 else 0
  }

  /** What `IComparable<T>` promises: every value equals itself, swapped operands flip the sign, and order is transitive. */
  ghost predicate IsComparer<T(!new)>(compareTo: (T, T) -> int)
  {
    && (forall a :: compareTo(a, a) == 0)
    && (forall a, b :: Sign(compareTo(a, b)) == -Sign(compareTo(b, a)))
    && (forall a, b, c :: compareTo(a, b) <= 0 && compareTo(b, c) <= 0 ==> compareTo(a, c) <= 0)
  }

  /** Below `min` gives `min`, else above `max` gives `max`, else the value itself. */
  function Clamp<T>(value: T, min: T, max: T, compareTo: (T, T) -> int): (r: T)
    ensures r == value || r == min || r == max
    ensures compareTo(value, min) < 0 ==> r == min
    ensures compareTo(value, min) >= 0 && compareTo(value, max) <= 0 ==> r == value
  {
    if compareTo(value, min) < 0 then min
    else if compareTo(value, max) > 0 then max
    else value
  }

  /** With `min <= max`, the result lies between them. */
  lemma ClampInRange<T(!new)>(value: T, min: T, max: T, compareTo: (T, T) -> int)
    requires IsComparer(compareTo)
    requires compareTo(min, max) <= 0
    ensures var r := Clamp(value, min, max, compareTo);
      compareTo(min, r) <= 0 && compareTo(r, max) <= 0
  {
  }

  /** With `min <= max`, a value above `max` gives `max`. */
  lemma ClampAbove<T(!new)>(value: T, min: T, max: T, compareTo: (T, T) -> int)
    requires IsComparer(compareTo)
    requires compareTo(min, max) <= 0
    requires compareTo(value, max) > 0
    ensures Clamp(value, min, max, compareTo) == max
  {
  }

  /** With `min <= max`, clamping twice is clamping once. */
  lemma ClampIdempotent<T(!new)>(value: T, min: T, max: T, compareTo: (T, T) -> int)
    requires IsComparer(compareTo)
    requires compareTo(min, max) <= 0
    ensures Clamp(Clamp(value, min, max, compareTo), min, max, compareTo) == Clamp(value, min, max, compareTo)
  {
  }

  /** `int.CompareTo`. */
  function CompareInt(a: int, b: int): (c: int)
    ensures c < 0 <==> a < b
    ensures c > 0 <==> a > b
  {
    if a < b then -1 else if a > b then 1 else 0
  }

  lemma CompareIntIsComparer()
    ensures IsComparer(CompareInt)
  {
  }

  /** On integers, `Clamp` is the usual bounded value. */
  lemma ClampInt(value: int, min: int, max: int)
    requires min <= max
    ensures var r := Clamp(value, min, max, CompareInt);
      min <= r <= max && (min <= value <= max ==> r == value)
  {
  }
}
