/** JSON values as serde_json holds them, and the loose equality the VM engine compares them with. */
module Json {
  /** An unsigned number, a negative one (`NegInt(k)` is -1 - k) or a float, which carries the text serde_json
      prints for it. */
  datatype Number = PosInt(n: nat) | NegInt(k: nat) | Float(f: real, text: string)

  datatype Json =
    | Null
    | Bool(b: bool)
    | Num(num: Number)
    | Str(s: string)
    | Arr(items: seq<Json>)
    | Obj(fields: map<string, Json>)

  // ---------------------------------------------------------------- numbers as f64

  const TWO_53 := 9007199254740992

  /** How often a number must be halved to fit 53 bits. */
  function ExtraBits(n: nat): nat { if n < TWO_53 then 0 else 1 + ExtraBits(n / 2) }

  function Power2(e: nat): nat
    ensures Power2(e) >= 1
  {
    if e == 0 then 1 else 2 * Power2(e - 1)
  }

  predicate RoundsUp(q: nat, r: nat, unit: nat) { 2 * r > unit || (2 * r == unit && q % 2 == 1) }

  /** Rounding to a whole number of units, half to even. */
  function RoundedUnits(n: nat, unit: nat): nat
    requires unit >= 1
  {
    if RoundsUp(n / unit, n % unit, unit) then n / unit + 1 else n / unit
  }

  function RoundTo(n: nat, unit: nat): nat
    requires unit >= 1
  {
    RoundedUnits(n, unit) * unit
  }

  /** Rounding to 53 significant bits. */
  function RoundToF64(n: nat): nat { RoundTo(n, Power2(ExtraBits(n))) }

  /** The unit in the last place: the number of units in `n` fits 53 bits, and no smaller unit would do. */
  lemma {:induction false} UnitFits(n: nat)
    ensures var unit := Power2(ExtraBits(n));
      n / unit < TWO_53 && (unit > 1 ==> 2 * (n / unit) + 1 >= TWO_53)
  {
    if n >= TWO_53 {
      UnitFits(n / 2);
      var half := Power2(ExtraBits(n / 2));
      DivideTwice(n, half);
    }
  }

  lemma {:induction false} DivideTwice(n: nat, d: nat)
    requires d >= 1
    ensures n / 2 / d == n / (2 * d)
  {
    var q := n / 2 / d;
    var r := n / 2 % d;
    assert n / 2 == q * d + r;
    assert n == 2 * (n / 2) + n % 2;
    assert n == q * (2 * d) + (2 * r + n % 2);
    QuotientIs(n, 2 * d, q, 2 * r + n % 2);
  }

  lemma {:induction false} QuotientIs(n: nat, d: nat, q: nat, r: nat)
    requires d >= 1 && n == q * d + r && r < d
    ensures n / d == q
  {
    var p, rem := n / d, n % d;
    assert p * d + rem == q * d + r;
    Distribute(p, q, d);
    SmallMultiple(p - q, d);
  }

  lemma {:induction false} Distribute(p: int, q: int, d: int)
    ensures (p - q) * d == p * d - q * d
  {
  }

  lemma {:induction false} SmallMultiple(x: int, d: int)
    requires -d < x * d < d
    ensures x == 0
  {
  }

  /** Rounding goes to the nearest whole number of units, and of two equally near ones to the even one. */
  lemma {:induction false} RoundsToNearest(n: nat, unit: nat)
    requires unit >= 1
    ensures var r := RoundTo(n, unit);
      && 2 * (r - n) <= unit && 2 * (n - r) <= unit
      && (2 * (r - n) == unit || 2 * (n - r) == unit ==> RoundedUnits(n, unit) % 2 == 0)
  {
    WholeUnits(n, unit);
    NextUnit(n / unit, unit);
    NearestIs(n, unit, n / unit, n % unit, n / unit * unit, RoundedUnits(n, unit), RoundTo(n, unit));
  }

  lemma {:induction false} WholeUnits(n: nat, unit: nat)
    requires unit >= 1
    ensures n == n / unit * unit + n % unit && n % unit < unit
  {
  }

  lemma {:induction false} NextUnit(q: nat, unit: nat)
    ensures (q + 1) * unit == q * unit + unit
  {
  }

  lemma {:induction false} NearestIs(n: int, unit: nat, q: nat, rem: nat, below: int, m: nat, r: int)
    requires n == below + rem && rem < unit
    requires if RoundsUp(q, rem, unit) then m == q + 1 && r == below + unit else m == q && r == below
    ensures 2 * (r - n) <= unit && 2 * (n - r) <= unit
    ensures 2 * (r - n) == unit || 2 * (n - r) == unit ==> m % 2 == 0
  {
  }

  lemma {:induction false} PowerSum(a: nat, b: nat)
    ensures Power2(a + b) == Power2(a) * Power2(b)
  {
    if a > 0 {
      PowerSum(a - 1, b);
      assert a + b - 1 == a - 1 + b;
      TwiceFirst(Power2(a - 1), Power2(b));
    }
  }

  lemma {:induction false} TwiceFirst(x: nat, y: nat)
    ensures 2 * (x * y) == (2 * x) * y
  {
  }

  lemma {:induction false} SmallPowers()
    ensures Power2(1) == 2 && Power2(2) == 4 && Power2(4) == 16 && Power2(8) == 256
  {
    PowerSum(1, 1);
    PowerSum(2, 2);
    PowerSum(4, 4);
  }

  lemma {:induction false} MiddlePowers()
    ensures Power2(16) == 65536 && Power2(32) == 4294967296 && Power2(48) == 281474976710656
  {
    SmallPowers();
    PowerSum(8, 8);
    PowerSum(16, 16);
    PowerSum(32, 16);
  }

  lemma {:induction false} PowerIs53()
    ensures Power2(53) == TWO_53
  {
    SmallPowers();
    MiddlePowers();
    PowerSum(48, 4);
    PowerSum(52, 1);
  }

  lemma {:induction false} PowersAre()
    ensures Power2(53) == TWO_53 && Power2(63) == 9223372036854775808 && Power2(64) == 18446744073709551616
  {
    SmallPowers();
    PowerIs53();
    PowerSum(53, 8);
    PowerSum(61, 2);
    PowerSum(63, 1);
  }

  lemma {:induction false} QuotientAtLeast(n: nat, d: nat, c: nat)
    requires d >= 1 && n >= c * d
    ensures n / d >= c
  {
    WholeUnits(n, d);
    var q := n / d;
    if q < c {
      OrderedProducts(q + 1, c, d);
      NextUnit(q, d);
    }
  }

  lemma {:induction false} OrderedProducts(a: nat, b: nat, d: nat)
    requires a <= b
    ensures a * d <= b * d
  {
  }

  /** Rounding never goes below a power of two that the number has reached. */
  lemma {:induction false} PowerIsKept(n: nat, e: nat)
    requires n >= Power2(e) && ExtraBits(n) <= e
    ensures RoundToF64(n) >= Power2(e)
  {
    var unit, c := Power2(ExtraBits(n)), Power2(e - ExtraBits(n));
    PowerSum(e - ExtraBits(n), ExtraBits(n));
    QuotientAtLeast(n, unit, c);
    OrderedProducts(c, RoundedUnits(n, unit), unit);
  }

  /** Numbers of up to 53 bits are not rounded. */
  lemma {:induction false} SmallIsExact(n: nat)
    requires n < TWO_53
    ensures RoundToF64(n) == n
  {
  }

  function AsF64(n: Number): real {
    match n
    case PosInt(n) => RoundToF64(n) as real
    case NegInt(k) => -(RoundToF64(k + 1) as real)
    case Float(f, _) => f
  }

  /** Integers of up to 53 bits, of either sign, stay as they are; a float is what it is. */
  lemma {:induction false} SmallAsF64(i: int, f: real, text: string)
    requires -TWO_53 < i < TWO_53
    ensures i >= 0 ==> AsF64(PosInt(i)) == i as real
    ensures i < 0 ==> AsF64(NegInt(-1 - i)) == i as real
    ensures AsF64(Float(f, text)) == f
  {
    SmallIsExact(if i >= 0 then i else -i);
  }

  /** A negative integer is rounded as its opposite is. */
  lemma {:induction false} NegativeAsF64(k: nat)
    ensures AsF64(NegInt(k)) == -AsF64(PosInt(k + 1))
  {
  }

  // ---------------------------------------------------------------- loose equality

  predicate EqLoose(a: Json, b: Json) {
    match (a, b)
    case (Num(x), Num(y)) => AsF64(x) == AsF64(y)
    case (Arr(left), Arr(right)) =>
      |left| == |right| && forall i :: 0 <= i < |left| ==> EqLoose(left[i], right[i])
    case (Obj(left), Obj(right)) =>
      |left| == |right| && forall k :: k in left ==> k in right && EqLoose(left[k], right[k])
    case (_, _) => a == b
  }

  lemma {:induction false} EqReflexive(a: Json)
    ensures EqLoose(a, a)
  {
    match a
    case Arr(items) => forall i | 0 <= i < |items| ensures EqLoose(items[i], items[i]) { EqReflexive(items[i]); }
    case Obj(fields) => forall k | k in fields ensures EqLoose(fields[k], fields[k]) { EqReflexive(fields[k]); }
    case _ =>
  }

  /** A subset of the same size is the whole set. */
  lemma SameSizeSubset(a: set<string>, b: set<string>)
    requires a <= b && |a| == |b|
    ensures a == b
  {
    assert |b - a| == |b| - |a|;
  }

  /** The keys of loosely equal objects are the same, although only one side's keys are checked. */
  lemma EqSameKeys(left: map<string, Json>, right: map<string, Json>)
    requires EqLoose(Obj(left), Obj(right))
    ensures left.Keys == right.Keys
  {
    assert left.Keys <= right.Keys;
    assert |left.Keys| == |left| && |right.Keys| == |right|;
    SameSizeSubset(left.Keys, right.Keys);
  }

  lemma {:induction false} EqSymmetric(a: Json, b: Json)
    requires EqLoose(a, b)
    ensures EqLoose(b, a)
  {
    match (a, b)
    case (Arr(left), Arr(right)) =>
      forall i | 0 <= i < |left| ensures EqLoose(right[i], left[i]) { EqSymmetric(left[i], right[i]); }
    case (Obj(left), Obj(right)) =>
      EqSameKeys(left, right);
      forall k | k in right ensures k in left && EqLoose(right[k], left[k]) { EqSymmetric(left[k], right[k]); }
    case (_, _) =>
  }

  lemma {:induction false} EqTransitive(a: Json, b: Json, c: Json)
    requires EqLoose(a, b) && EqLoose(b, c)
    ensures EqLoose(a, c)
  {
    match (a, b, c)
    case (Arr(x), Arr(y), Arr(z)) =>
      forall i | 0 <= i < |x| ensures EqLoose(x[i], z[i]) { EqTransitive(x[i], y[i], z[i]); }
    case (Obj(x), Obj(y), Obj(z)) =>
      forall k | k in x ensures k in z && EqLoose(x[k], z[k]) { EqTransitive(x[k], y[k], z[k]); }
    case (_, _, _) =>
  }
}
