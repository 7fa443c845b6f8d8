/** Snapping a token budget to the grid of its configuration, with round-half-to-even. */
module ThinkingBudget {
  import opened Common

  datatype BudgetConfig = BudgetConfig(minTokens: int, maxTokens: int, stepTokens: int, details: Payload)

  /** What every parsed configuration satisfies. */
  predicate ConfigOk(c: BudgetConfig) {
    c.minTokens <= c.maxTokens && c.stepTokens >= 1
  }

  function Max(a: int, b: int): int {
    if a >= b then a else b
  }

  function Min(a: int, b: int): int {
    if a <= b then a else b
  }

  /** The integer nearest to n / d, the even one of two. */
  function RoundDiv(n: nat, d: nat): nat
    requires d > 0
  {
    var q, r := n / d, n % d;
    if 2 * r < d || (2 * r == d && q % 2 == 0) then q else q + 1
  }

  function InRange(value: int, c: BudgetConfig): int {
    Min(c.maxTokens, Max(c.minTokens, value))
  }

  function Snapped(value: int, c: BudgetConfig): int
    requires ConfigOk(c)
  {
    c.minTokens + RoundDiv(InRange(value, c) - c.minTokens, c.stepTokens) * c.stepTokens
  }

  function Clamp(value: int, c: BudgetConfig): int
    requires ConfigOk(c)
  {
    InRange(Snapped(value, c), c)
  }

  lemma DivMod(n: nat, d: nat)
    requires d > 0
    ensures n == (n / d) * d + n % d && n % d < d
  {
  }

  lemma RoundDivNear(n: nat, d: nat)
    requires d > 0
    ensures var k := RoundDiv(n, d); 2 * (k * d - n) <= d && 2 * (n - k * d) <= d
  {
    DivMod(n, d);
    assert (n / d + 1) * d == (n / d) * d + d;
  }

  lemma QuotientGrows(m: nat, n: nat, d: nat)
    requires d > 0 && m <= n
    ensures m / d <= n / d
  {
    DivMod(m, d);
    DivMod(n, d);
    if m / d > n / d {
      ProductGrows(n / d + 1, m / d, d);
    }
  }

  lemma ProductGrows(j: nat, k: nat, d: nat)
    requires j <= k
    ensures j * d <= k * d
  {
  }

  lemma RoundDivGrows(m: nat, n: nat, d: nat)
    requires d > 0 && m <= n
    ensures RoundDiv(m, d) <= RoundDiv(n, d)
  {
    QuotientGrows(m, n, d);
    if m / d == n / d {
      DivMod(m, d);
      DivMod(n, d);
    }
  }

  lemma QuotientUnique(q: nat, r: nat, k: nat, d: nat)
    requires q * d + r == k * d && r < d
    ensures q == k && r == 0
  {
    if q < k {
      ProductGrows(q + 1, k, d);
    } else if q > k {
      ProductGrows(k + 1, q, d);
    }
  }

  lemma RoundDivExact(k: nat, d: nat)
    requires d > 0
    ensures RoundDiv(k * d, d) == k
  {
    var n := k * d;
    DivMod(n, d);
    QuotientUnique(n / d, n % d, k, d);
  }

  /** A value of the grid that starts at the minimum. */
  ghost predicate OnGrid(value: int, c: BudgetConfig) {
    exists k: nat :: value == GridPoint(k, c)
  }

  function GridPoint(k: nat, c: BudgetConfig): int {
    c.minTokens + k * c.stepTokens
  }

  /**
   The result is in range, on the grid or the maximum itself, and no further from the range-clamped
   input than half a step.
   */
  lemma ClampSnaps(value: int, c: BudgetConfig)
    requires ConfigOk(c)
    ensures var r := Clamp(value, c);
            && c.minTokens <= r <= c.maxTokens
            && (OnGrid(r, c) || r == c.maxTokens)
            && -c.stepTokens <= 2 * (r - InRange(value, c)) <= c.stepTokens
  {
    var n := InRange(value, c) - c.minTokens;
    var k := RoundDiv(n, c.stepTokens);
    RoundDivNear(n, c.stepTokens);
    ProductGrows(0, k, c.stepTokens);
    assert Snapped(value, c) == GridPoint(k, c);
  }

  /** Exactly half way between two points of the grid, the one with an even number is taken. */
  lemma ClampTies(value: int, k: nat, c: BudgetConfig)
    requires ConfigOk(c) && c.minTokens <= value <= c.maxTokens && GridPoint(k + 1, c) <= c.maxTokens
    requires 2 * (value - GridPoint(k, c)) == c.stepTokens
    ensures Clamp(value, c) == GridPoint(if k % 2 == 0 then k else k + 1, c)
  {
    var n, d := value - c.minTokens, c.stepTokens;
    ProductGrows(0, k, d);
    DivMod(n, d);
    assert 2 * n == (2 * k + 1) * d;
    TieQuotient(n, k, d);
  }

  lemma TieQuotient(n: nat, k: nat, d: nat)
    requires d > 0 && 2 * (n - k * d) == d
    ensures n / d == k && 2 * (n % d) == d
  {
    var r := n - k * d;
    DivMod(n, d);
    if n / d < k {
      ProductGrows(n / d + 1, k, d);
    } else if n / d > k {
      ProductGrows(k + 1, n / d, d);
    }
  }

  lemma ClampGrows(a: int, b: int, c: BudgetConfig)
    requires ConfigOk(c) && a <= b
    ensures Clamp(a, c) <= Clamp(b, c)
  {
    var m, n := InRange(a, c) - c.minTokens, InRange(b, c) - c.minTokens;
    RoundDivGrows(m, n, c.stepTokens);
    ProductGrows(RoundDiv(m, c.stepTokens), RoundDiv(n, c.stepTokens), c.stepTokens);
  }

  lemma ClampIdempotent(value: int, c: BudgetConfig)
    requires ConfigOk(c)
    ensures Clamp(Clamp(value, c), c) == Clamp(value, c)
  {
    var n := InRange(value, c) - c.minTokens;
    var k := RoundDiv(n, c.stepTokens);
    ProductGrows(0, k, c.stepTokens);
    if Snapped(value, c) <= c.maxTokens {
      RoundDivExact(k, c.stepTokens);
    } else {
      var all := c.maxTokens - c.minTokens;
      RoundDivGrows(n, all, c.stepTokens);
      ProductGrows(k, RoundDiv(all, c.stepTokens), c.stepTokens);
    }
  }

  /** Which inputs are left alone: exactly those that are in range, and on the grid or the maximum above its last point. */
  lemma ClampFixes(value: int, c: BudgetConfig)
    requires ConfigOk(c)
    ensures Clamp(value, c) == value <==>
      && c.minTokens <= value <= c.maxTokens
      && (OnGrid(value, c) || (value == c.maxTokens && Snapped(value, c) > c.maxTokens))
  {
    ClampSnaps(value, c);
    if c.minTokens <= value <= c.maxTokens && OnGrid(value, c) {
      var k: nat :| value == GridPoint(k, c);
      RoundDivExact(k, c.stepTokens);
    }
    if Clamp(value, c) == value {
      var k := RoundDiv(InRange(value, c) - c.minTokens, c.stepTokens);
      ProductGrows(0, k, c.stepTokens);
      assert Snapped(value, c) == GridPoint(k, c);
    }
  }
}
