/** Multiples of a granularity `g` and division by it, by repeated addition and subtraction. */
module Granules {
  function Times(i: nat, g: nat): nat
    decreases i
  {
    if i == 0 then 0 else Times(i - 1, g) + g
  }

  /** `x / g` and `x % g`. */
  function Quot(x: nat, g: nat): nat
    requires g > 0
    decreases x
  {
    if x < g then 0 else Quot(x - g, g) + 1
  }

  function Rem(x: nat, g: nat): (r: nat)
    requires g > 0
    ensures r < g
    decreases x
  {
    if x < g then x else Rem(x - g, g)
  }

  lemma {:induction false} TimesIsProduct(i: nat, g: nat)
    ensures Times(i, g) == i * g
    decreases i
  {
    if i > 0 {
      TimesIsProduct(i - 1, g);
    }
  }

  lemma {:induction false} TimesOrder(i: nat, j: nat, g: nat)
    requires i < j
    ensures Times(i, g) + g <= Times(j, g)
    decreases j
  {
    if i < j - 1 {
      TimesOrder(i, j - 1, g);
    }
  }

  lemma {:induction false} TimesSum(i: nat, j: nat, g: nat)
    ensures Times(i + j, g) == Times(i, g) + Times(j, g)
    decreases j
  {
    if j > 0 {
      TimesSum(i, j - 1, g);
    }
  }

  /** The quotient is the number of whole granules. */
  lemma {:induction false} QuotTimes(x: nat, g: nat)
    requires g > 0
    ensures x == Times(Quot(x, g), g) + Rem(x, g)
    decreases x
  {
    if x >= g {
      QuotTimes(x - g, g);
    }
  }

  lemma QuotUnique(x: nat, g: nat, d: nat)
    requires g > 0 && Times(d, g) <= x < Times(d, g) + g
    ensures Quot(x, g) == d
  {
    QuotTimes(x, g);
    if Quot(x, g) < d {
      TimesOrder(Quot(x, g), d, g);
    } else if d < Quot(x, g) {
      TimesOrder(d, Quot(x, g), g);
    }
  }

  /** The operators of the source compute these. */
  lemma QuotIsDiv(x: nat, g: nat)
    requires g > 0
    ensures x / g == Quot(x, g) && x % g == Rem(x, g)
  {
    TimesIsProduct(x / g, g);
    QuotUnique(x, g, x / g);
    QuotTimes(x, g);
  }

  lemma QuotBelow(x: nat, g: nat, n: nat)
    requires g > 0
    ensures Quot(x, g) < n <==> x < Times(n, g)
  {
    QuotTimes(x, g);
    if Quot(x, g) < n {
      TimesOrder(Quot(x, g), n, g);
    } else if n < Quot(x, g) {
      TimesOrder(n, Quot(x, g), g);
    }
  }

  lemma QuotShift(x: nat, n: nat, g: nat)
    requires g > 0
    ensures Quot(x + Times(n, g), g) == Quot(x, g) + n
  {
    QuotTimes(x, g);
    TimesSum(Quot(x, g), n, g);
    QuotUnique(x + Times(n, g), g, Quot(x, g) + n);
  }

  lemma QuotMonotone(x: nat, y: nat, g: nat)
    requires g > 0 && x <= y
    ensures Quot(x, g) <= Quot(y, g)
  {
    QuotTimes(x, g);
    QuotBelow(y, g, Quot(x, g));
  }
}
