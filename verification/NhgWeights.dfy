/**
 * Next-hop weights of one next-hop-group.
 *
 * A group is either ECMP (every next-hop has weight 1) or WCMP with a weight granularity that
 * is shared out over the next-hops.  Weights are unsigned 64-bit in the source; every weight
 * is at most the granularity, so no operation here can wrap.
 */
module NhgWeights {
  import opened GoInts
  import opened Seqs

  /** Unset is a missing configuration; groups under it get equal weights, but no valid request has it. */
  datatype WeightConfig = ECMP | WCMP(granularity: nat) | Unset

  /** Closed form of the weight of next-hop i when g units are shared over n next-hops. */
  function WeightAt(g: nat, n: nat, i: nat): nat
    requires i < n
  {
    var b, r := g / n, g % n;
    var shift := if n > 1 && b > 1 && r == 0 then 1 else 0;
    if i == n - 1 then b + r + shift
    else if i == n - 2 then b - shift
    else b
  }

  function Shares(g: nat, n: nat): (w: seq<nat>)
    ensures |w| == n
  {
    seq(n, i requires 0 <= i < n => WeightAt(g, n, i))
  }

  /** The weights of a group under a weight configuration. */
  function WeightsFor(cfg: WeightConfig, n: nat): (w: seq<nat>)
    ensures |w| == n
  {
    match cfg
    case WCMP(g) => Shares(g, n)
    case _ => seq(n, _ => 1)
  }

  /** The weights before an even split is unbalanced. */
  function Raw(g: nat, n: nat): (w: seq<nat>)
    ensures |w| == n
  {
    seq(n, i requires 0 <= i < n => g / n + if i == n - 1 then g % n else 0)
  }

  /** The first loop. */
  method FillRaw(weights: array<nat>, granularity: nat)
    requires weights.Length > 0
    modifies weights
    ensures weights[..] == Raw(granularity, weights.Length)
  {
    var n := weights.Length;
    var baseWeight := granularity / n;
    var remainder := granularity % n;
    for i := 0 to n
      invariant forall k :: 0 <= k < i ==> weights[k] == baseWeight + if k == n - 1 then remainder else 0
    {
      var w := baseWeight;
      if i == n - 1 {
        w := w + remainder;
      }
      weights[i] := w;
    }
  }

  /** The second loop. */
  method AllSame(weights: array<nat>) returns (allEqual: bool)
    requires weights.Length > 0
    ensures allEqual <==> forall k :: 0 <= k < weights.Length ==> weights[k] == weights[0]
  {
    for idx := 1 to weights.Length
      invariant forall k :: 0 <= k < idx ==> weights[k] == weights[0]
    {
      if weights[idx] != weights[0] {
        return false;
      }
    }
    allEqual := true;
  }

  lemma RawEqualIff(g: nat, n: nat)
    requires n >= 2
    ensures (forall k :: 0 <= k < n ==> Raw(g, n)[k] == Raw(g, n)[0]) <==> g % n == 0
  {
    if g % n != 0 {
      assert Raw(g, n)[n - 1] != Raw(g, n)[0];
    }
  }

  /** Unbalanced or not, the closed form comes out. */
  lemma RawToShares(g: nat, n: nat)
    requires n >= 1
    ensures n == 1 || g / n <= 1 || g % n != 0 ==> Raw(g, n) == Shares(g, n)
    ensures n >= 2 && g / n > 1 && g % n == 0 ==>
              Raw(g, n)[n - 2 := g / n - 1][n - 1 := g / n + 1] == Shares(g, n)
  {
  }

  /** computeNHGWeights: share the granularity out, remainder to the last hop, then unbalance an even split. */
  method ComputeNHGWeights(granularity: nat, actualNHCount: nat) returns (result: seq<nat>)
    ensures result == Shares(granularity, actualNHCount)
  {
    hide Raw, Shares;
    var weights := new nat[actualNHCount];
    if actualNHCount == 0 {
      return weights[..];
    }
    FillRaw(weights, granularity);
    RawToShares(granularity, actualNHCount);
    if actualNHCount > 1 && granularity / actualNHCount > 1 {
      var allEqual := AllSame(weights);
      assert forall k :: 0 <= k < actualNHCount ==> weights[k] == weights[..][k];
      RawEqualIff(granularity, actualNHCount);
      if allEqual {
        RawAt(granularity, actualNHCount);
        weights[actualNHCount - 2] := weights[actualNHCount - 2] - 1;
        weights[actualNHCount - 1] := weights[actualNHCount - 1] + 1;
      }
    }
    result := weights[..];
  }

  lemma RawAt(g: nat, n: nat)
    requires n >= 2 && g % n == 0
    ensures Raw(g, n)[n - 2] == g / n && Raw(g, n)[n - 1] == g / n
  {
  }

  /** Conservation: the weights of a non-empty group add up to the granularity. */
  lemma {:induction false} SharesSumToGranularity(g: nat, n: nat)
    requires n >= 1
    ensures Sum(Shares(g, n)) == g
  {
    var w := Shares(g, n);
    var b, r := g / n, g % n;
    assert g == n * b + r;
    if n >= 2 {
      SumToConstant(w, n - 2, b);
      assert SumTo(w, n - 1) == (n - 2) * b + w[n - 2];
      assert (n - 2) * b + 2 * b == n * b;
    } else {
      assert SumTo(w, 1) == SumTo(w, 0) + w[0];
    }
  }

  ghost predicate AllPositive(w: seq<nat>) {
    forall i :: 0 <= i < |w| ==> w[i] > 0
  }

  ghost predicate AllEqual(w: seq<nat>) {
    forall i, j :: 0 <= i < |w| && 0 <= j < |w| ==> w[i] == w[j]
  }

  /** Every hop carries traffic exactly when there are at least as many units as hops. */
  lemma SharesPositiveIff(g: nat, n: nat)
    requires n >= 1 && g >= 1
    ensures AllPositive(Shares(g, n)) <==> g >= n
  {
    var w := Shares(g, n);
    if g >= n {
      DivAtLeastOne(g, n);
    } else {
      assert w[0] == if n == 1 then g else 0;
    }
  }

  /** Some hop carries traffic in every non-empty group with a positive granularity. */
  lemma SomeSharePositive(g: nat, n: nat)
    requires n >= 1 && g >= 1
    ensures Shares(g, n)[n - 1] > 0
  {
    if g >= n {
      DivAtLeastOne(g, n);
    }
  }

  /** The weights are equal, which lets a router fall back to ECMP, only when the granularity is the hop count. */
  lemma SharesEqualIff(g: nat, n: nat)
    requires n >= 2 && g >= 1
    ensures AllEqual(Shares(g, n)) <==> g == n
  {
    var w := Shares(g, n);
    var b, r := g / n, g % n;
    assert g == n * b + r;
    if g == n {
      assert b == 1 && r == 0;
    } else {
      assert w[n - 1] != w[n - 2];
    }
  }

  ghost predicate WithinOne(w: seq<nat>) {
    forall i, j :: 0 <= i < |w| && 0 <= j < |w| ==> w[i] <= w[j] + 1
  }

  /** The split is as even as possible only for these granularities: the remainder is never spread. */
  lemma SharesEvenIff(g: nat, n: nat)
    requires n >= 2 && g >= 1
    ensures WithinOne(Shares(g, n)) <==> g == n || g % n == 1
  {
    var w := Shares(g, n);
    var b, r := g / n, g % n;
    assert g == n * b + r;
    if g == n {
      assert b == 1 && r == 0;
    } else if r != 1 {
      assert w[n - 1] > w[n - 2] + 1;
    }
  }

  ghost predicate Divides(d: nat, x: nat)
    requires d > 0
  {
    x % d == 0
  }

  ghost predicate CommonDivisor(w: seq<nat>, d: nat)
    requires d > 0
  {
    forall i :: 0 <= i < |w| ==> Divides(d, w[i])
  }

  /** What two numbers and their sum share with a divisor. */
  lemma DividesSum(d: nat, a: nat, b: nat)
    requires d > 0 && Divides(d, a)
    ensures Divides(d, a + b) <==> Divides(d, b)
  {
    var q := a / d;
    assert a == d * q;
    assert (a + b) % d == b % d by {
      var k := b / d;
      assert b == d * k + b % d;
      assert a + b == d * (q + k) + b % d;
      DivMod(a + b, d, q + k, b % d);
    }
  }

  /** The common divisors of a WCMP group's weights, exactly. */
  lemma SharesCommonDivisorIff(g: nat, n: nat, d: nat)
    requires n >= 2 && g >= 1 && d >= 1
    ensures CommonDivisor(Shares(g, n), d) <==>
            var b, r := g / n, g % n;
            if r != 0 || b <= 1 then Divides(d, b) && Divides(d, r)
            else d == 1 || (n == 2 && d == 2 && b % 2 == 1)
  {
    var w := Shares(g, n);
    var b, r := g / n, g % n;
    if r != 0 || b <= 1 {
      if CommonDivisor(w, d) {
        assert Divides(d, w[n - 2]) && Divides(d, w[n - 1]);
        DividesSum(d, b, r);
      } else if Divides(d, b) && Divides(d, r) {
        DividesSum(d, b, r);
      }
    } else if CommonDivisor(w, d) {
      assert Divides(d, w[n - 2]) && Divides(d, w[n - 1]);
      DividesSum(d, b - 1, 2);
      assert 2 % d == 0;
      if n > 2 {
        DividesSum(d, b - 1, 1);
        assert w[0] == b;
      }
    }
  }

  ghost predicate Coprime(w: seq<nat>) {
    forall d :: d > 1 ==> !CommonDivisor(w, d)
  }

  function Gcd(a: nat, b: nat): nat
    decreases b
  {
    if b == 0 then a else Gcd(b, a % b)
  }

  lemma DividesMultiple(d: nat, x: nat, q: nat)
    requires d > 0 && Divides(d, x)
    ensures Divides(d, x * q)
  {
    var k := x / d;
    assert x * q == d * (k * q) by {
      assert x == d * k;
    }
    DivMod(x * q, d, k * q, 0);
  }

  /** The common divisors of two numbers are the divisors of their greatest one. */
  lemma {:induction false} GcdIff(a: nat, b: nat, d: nat)
    requires d > 0
    ensures Divides(d, a) && Divides(d, b) <==> Divides(d, Gcd(a, b))
    decreases b
  {
    if b == 0 {
      DivMod(0, d, 0, 0);
    } else {
      GcdIff(b, a % b, d);
      if Divides(d, b) {
        var q := a / b;
        assert a == b * q + a % b;
        DividesMultiple(d, b, q);
        DividesSum(d, b * q, a % b);
      }
    }
  }

  lemma {:induction false} GcdPositive(a: nat, b: nat)
    requires a > 0 || b > 0
    ensures Gcd(a, b) > 0
    decreases b
  {
    if b > 0 {
      GcdPositive(b, a % b);
    }
  }

  /** Two numbers share no factor exactly when their greatest common divisor is one. */
  lemma GcdOneIff(a: nat, b: nat)
    requires a > 0 || b > 0
    ensures Gcd(a, b) == 1 <==> forall d: nat :: d > 1 ==> !(Divides(d, a) && Divides(d, b))
  {
    hide Gcd;
    GcdPositive(a, b);
    var g := Gcd(a, b);
    forall d: nat | d > 1
      ensures Divides(d, a) && Divides(d, b) <==> Divides(d, g)
    {
      GcdIff(a, b, d);
    }
    if g > 1 {
      assert Divides(g, g);
    }
  }

  /**
   * The test plan asks for co-prime weights.  The code gives them unless the remainder shares a
   * factor with the base weight, or two hops get an odd base weight above one without remainder.
   */
  lemma SharesCoprimeIff(g: nat, n: nat)
    requires n >= 2 && g >= 1
    ensures Coprime(Shares(g, n)) <==>
            if g % n != 0 || g / n <= 1 then Gcd(g / n, g % n) == 1 else n > 2 || g / n % 2 == 0
  {
    hide Shares, Gcd, CommonDivisor, Divides;
    var w := Shares(g, n);
    var b, r := g / n, g % n;
    assert g == n * b + r;
    forall d: nat | d > 1
      ensures CommonDivisor(w, d) <==>
              if r != 0 || b <= 1 then Divides(d, b) && Divides(d, r) else n == 2 && d == 2 && b % 2 == 1
    {
      SharesCommonDivisorIff(g, n, d);
    }
    if r != 0 || b <= 1 {
      GcdOneIff(b, r);
    } else if n == 2 && b % 2 == 1 {
      assert CommonDivisor(w, 2);
    }
  }

  /** A request it fails for: 20 units over 8 hops are seven times 2 and once 6. */
  lemma TwentyOverEight()
    ensures CommonDivisor(Shares(20, 8), 2) && !Coprime(Shares(20, 8))
  {
  }

  /**
   * A split of one to all the rest, exactly.  The test plan promises it for the transit groups:
   * 1 to 63 at granularity 64.  The code gives it for granularities 2, 3 and 4 only.
   */
  lemma OneToRestIff(g: nat)
    requires g >= 1
    ensures Shares(g, 2) == [1, g - 1] <==> 2 <= g <= 4
  {
    var w := Shares(g, 2);
    assert w == [w[0], w[1]];
    assert w[0] + w[1] == g;
  }
}
