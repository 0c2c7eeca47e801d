/**
 * The derivation of the six results from the inputs, and how the handlers
 * move those results.
 */
module Results {
  import opened Types
  import opened Handlers

  /** Revenue contributed by one line item. */
  function LineRevenue(u: ProductUnit): (r: real)
    ensures u.unitsSold == 0 || u.sellingPrice == 0.0 ==> r == 0.0
    ensures u.sellingPrice >= 0.0 && u.unitsSold >= 0 ==> r >= 0.0
  {
    u.sellingPrice * u.unitsSold as real
  }

  /** Cost of goods sold contributed by one line item. */
  function LineCost(u: ProductUnit): (r: real)
    ensures u.unitsSold == 0 || u.costPerUnit == 0.0 ==> r == 0.0
    ensures u.costPerUnit >= 0.0 && u.unitsSold >= 0 ==> r >= 0.0
  {
    u.costPerUnit * u.unitsSold as real
  }

  /** Reference definition: the sum of `f` over the items. */
  function Sum(units: seq<ProductUnit>, f: ProductUnit -> real): real
    decreases |units|
  {
    if |units| == 0 then 0.0 else f(units[0]) + Sum(units[1..], f)
  }

  /**
   * A left fold over the items, the way the array `reduce` call walks them
   * from an accumulator; the result is the accumulator plus the sum of the terms.
   */
  function Reduce(units: seq<ProductUnit>, f: ProductUnit -> real, acc: real): (r: real)
    ensures r == acc + Sum(units, f)
    decreases |units|
  {
    if |units| == 0 then acc else Reduce(units[1..], f, acc + f(units[0]))
  }

  /** The sum over a concatenation is the sum of the sums. */
  lemma {:induction false} SumAppend(a: seq<ProductUnit>, b: seq<ProductUnit>, f: ProductUnit -> real)
    ensures Sum(a + b, f) == Sum(a, f) + Sum(b, f)
    decreases |a|
  {
    if |a| > 0 {
      assert (a + b)[1..] == a[1..] + b;
      SumAppend(a[1..], b, f);
    } else {
      assert a + b == b;
    }
  }

  /** Replacing one item changes the sum by exactly the difference of that item's terms. */
  lemma {:induction false} SumUpdate(s: seq<ProductUnit>, i: nat, u: ProductUnit, f: ProductUnit -> real)
    requires i < |s|
    ensures Sum(s[i := u], f) == Sum(s, f) - f(s[i]) + f(u)
    decreases i
  {
    if i == 0 {
      assert s[i := u][1..] == s[1..];
    } else {
      assert s[i := u][1..] == s[1..][i - 1 := u];
      SumUpdate(s[1..], i - 1, u, f);
    }
  }

  /** Deleting position `i` removes exactly that item's term from the sum. */
  lemma {:induction false} SumRemove(s: seq<ProductUnit>, i: nat, f: ProductUnit -> real)
    requires i < |s|
    ensures Sum(s[..i] + s[i + 1..], f) == Sum(s, f) - f(s[i])
    decreases i
  {
    if i == 0 {
      assert s[..0] + s[1..] == s[1..];
    } else {
      SumRemove(s[1..], i - 1, f);
      var t := s[..i] + s[i + 1..];
      assert t[0] == s[0];
      assert t[1..] == s[1..][..i - 1] + s[1..][i..];
    }
  }

  /** Splicing out position `k` takes exactly one copy of `b[k]` out of the multiset. */
  lemma MultisetSplice(b: seq<ProductUnit>, k: nat)
    requires k < |b|
    ensures multiset(b[..k] + b[k + 1..]) == multiset(b) - multiset{b[k]}
  {
    assert b == b[..k] + [b[k]] + b[k + 1..];
  }

  /** Sums do not depend on the order of the items. */
  lemma {:induction false} SumPermutation(a: seq<ProductUnit>, b: seq<ProductUnit>, f: ProductUnit -> real)
    requires multiset(a) == multiset(b)
    ensures Sum(a, f) == Sum(b, f)
    decreases |a|
  {
    if |a| > 0 {
      assert a[0] in multiset(b);
      var k :| 0 <= k < |b| && b[k] == a[0];
      MultisetSplice(b, k);
      assert a == [a[0]] + a[1..];
      assert multiset(a[1..]) == multiset(a) - multiset{a[0]};
      SumPermutation(a[1..], b[..k] + b[k + 1..], f);
      SumRemove(b, k, f);
    } else {
      assert |b| == |multiset(b)|;
    }
  }

  /** Total revenue: price times units sold, summed over the items. */
  function Revenue(units: seq<ProductUnit>): (r: real)
    ensures r == Sum(units, LineRevenue)
  {
    Reduce(units, LineRevenue, 0.0)
  }

  /** Total cost of goods sold: unit cost times units sold, summed over the items. */
  function Cogs(units: seq<ProductUnit>): (r: real)
    ensures r == Sum(units, LineCost)
  {
    Reduce(units, LineCost, 0.0)
  }

  /** Income tax: a percentage of a positive pre-tax profit; nothing is charged on a loss. */
  function IncomeTax(netProfitBeforeTax: real, taxRate: real): (t: real)
    ensures netProfitBeforeTax <= 0.0 ==> t == 0.0
    ensures netProfitBeforeTax > 0.0 ==> t * 100.0 == netProfitBeforeTax * taxRate
    ensures taxRate >= 0.0 ==> t >= 0.0
    ensures 0.0 <= taxRate <= 100.0 && netProfitBeforeTax > 0.0 ==> t <= netProfitBeforeTax
  {
    if netProfitBeforeTax > 0.0 then
      var t := netProfitBeforeTax * taxRate / 100.0;
      assert taxRate >= 0.0 ==> t >= 0.0 by {
        if taxRate >= 0.0 {
          assert netProfitBeforeTax * taxRate >= 0.0;
        }
      }
      assert taxRate <= 100.0 ==> t <= netProfitBeforeTax by {
        if taxRate <= 100.0 {
          assert netProfitBeforeTax * (100.0 - taxRate) >= 0.0;
        }
      }
      t
    else 0.0
  }

  /** The six results, recomputed in full from the inputs. */
  function ComputeResults(inputs: CalculatorInputs): (r: CalculationResults)
    ensures r.revenue == Sum(inputs.productUnits, LineRevenue)
    ensures r.cogs == Sum(inputs.productUnits, LineCost)
    ensures r.grossProfit == r.revenue - r.cogs
    ensures r.netProfitBeforeTax == r.grossProfit - inputs.shippingCosts
    ensures r.incomeTax == IncomeTax(r.netProfitBeforeTax, inputs.taxRate)
    ensures r.netProfitAfterTax == r.netProfitBeforeTax - r.incomeTax
  {
    var revenue := Revenue(inputs.productUnits);
    var cogs := Cogs(inputs.productUnits);
    var grossProfit := revenue - cogs;
    var netProfitBeforeTax := grossProfit - inputs.shippingCosts;
    var incomeTaxAmount := IncomeTax(netProfitBeforeTax, inputs.taxRate);
    CalculationResults(
      revenue,
      cogs,
      grossProfit,
      netProfitBeforeTax,
      incomeTaxAmount,
      netProfitAfterTax := netProfitBeforeTax - incomeTaxAmount)
  }

  /** Tax is never negative for a non-negative rate, and at most the pre-tax profit for a rate up to 100%. */
  lemma TaxBounds(inputs: CalculatorInputs)
    ensures var r := ComputeResults(inputs);
            (r.netProfitBeforeTax <= 0.0 ==> r.incomeTax == 0.0 && r.netProfitAfterTax == r.netProfitBeforeTax)
            && (inputs.taxRate >= 0.0 ==> r.incomeTax >= 0.0 && r.netProfitAfterTax <= r.netProfitBeforeTax)
            && (0.0 <= inputs.taxRate <= 100.0 && r.netProfitBeforeTax > 0.0 ==>
                  0.0 <= r.netProfitAfterTax <= r.netProfitBeforeTax)
  {
  }

  /** Beyond the two totals and the shared numbers, nothing about the items affects the results. */
  lemma ResultsFollowTotals(x: CalculatorInputs, y: CalculatorInputs)
    requires Sum(x.productUnits, LineRevenue) == Sum(y.productUnits, LineRevenue)
    requires Sum(x.productUnits, LineCost) == Sum(y.productUnits, LineCost)
    requires x.shippingCosts == y.shippingCosts && x.taxRate == y.taxRate
    ensures ComputeResults(x) == ComputeResults(y)
  {
    var rx, ry := ComputeResults(x), ComputeResults(y);
    assert rx.netProfitBeforeTax == ry.netProfitBeforeTax;
    assert rx.incomeTax == ry.incomeTax;
  }

  /** With no items there is no revenue and no cost; the pre-tax result is the negated shipping cost. */
  lemma EmptyListResults(shippingCosts: real, taxRate: real)
    ensures var r := ComputeResults(CalculatorInputs([], shippingCosts, taxRate));
            r.revenue == 0.0 && r.cogs == 0.0 && r.grossProfit == 0.0
            && r.netProfitBeforeTax == -shippingCosts
            && (shippingCosts >= 0.0 ==> r.incomeTax == 0.0 && r.netProfitAfterTax == -shippingCosts)
  {
  }

  /** Items with non-negative price, cost and count give non-negative revenue and cost of goods sold. */
  lemma {:induction false} TotalsNonNegative(units: seq<ProductUnit>)
    requires forall k :: 0 <= k < |units| ==>
               units[k].sellingPrice >= 0.0 && units[k].costPerUnit >= 0.0 && units[k].unitsSold >= 0
    ensures Revenue(units) >= 0.0 && Cogs(units) >= 0.0
    decreases |units|
  {
    if |units| > 0 {
      TotalsNonNegative(units[1..]);
      assert LineRevenue(units[0]) >= 0.0 && LineCost(units[0]) >= 0.0;
    }
  }

  /** Revenue and cost of goods sold are additive over concatenated item lists. */
  lemma TotalsAppend(a: seq<ProductUnit>, b: seq<ProductUnit>)
    ensures Revenue(a + b) == Revenue(a) + Revenue(b)
    ensures Cogs(a + b) == Cogs(a) + Cogs(b)
  {
    SumAppend(a, b, LineRevenue);
    SumAppend(a, b, LineCost);
  }

  /** The results depend on the items only as a multiset: their order does not matter. */
  lemma ResultsIgnoreOrder(x: CalculatorInputs, y: CalculatorInputs)
    requires multiset(x.productUnits) == multiset(y.productUnits)
    requires x.shippingCosts == y.shippingCosts && x.taxRate == y.taxRate
    ensures ComputeResults(x) == ComputeResults(y)
  {
    SumPermutation(x.productUnits, y.productUnits, LineRevenue);
    SumPermutation(x.productUnits, y.productUnits, LineCost);
  }

  /** Editing one item moves revenue and cost of goods sold by that item's change alone. */
  lemma UpdateUnitShiftsTotals(prev: CalculatorInputs, index: int, edit: FieldEdit)
    requires 0 <= index < |prev.productUnits|
    ensures var old_u := prev.productUnits[index];
            var new_u := ApplyEdit(old_u, edit);
            var r := ComputeResults(UpdateUnit(prev, index, edit));
            var r0 := ComputeResults(prev);
            r.revenue == r0.revenue - LineRevenue(old_u) + LineRevenue(new_u)
            && r.cogs == r0.cogs - LineCost(old_u) + LineCost(new_u)
  {
    var u := ApplyEdit(prev.productUnits[index], edit);
    assert UpdateUnit(prev, index, edit).productUnits == prev.productUnits[index := u];
    SumUpdate(prev.productUnits, index, u, LineRevenue);
    SumUpdate(prev.productUnits, index, u, LineCost);
  }

  /** Renaming an item leaves every result unchanged. */
  lemma RenameKeepsResults(prev: CalculatorInputs, index: int, name: string)
    requires 0 <= index < |prev.productUnits|
    ensures ComputeResults(UpdateUnit(prev, index, Name(name))) == ComputeResults(prev)
  {
    var u := prev.productUnits[index];
    var renamed := ApplyEdit(u, Name(name));
    assert renamed.sellingPrice == u.sellingPrice && renamed.costPerUnit == u.costPerUnit
      && renamed.unitsSold == u.unitsSold;
    assert LineRevenue(renamed) == LineRevenue(u) && LineCost(renamed) == LineCost(u);
    UpdateUnitShiftsTotals(prev, index, Name(name));
    ResultsFollowTotals(UpdateUnit(prev, index, Name(name)), prev);
  }


  /** Adding the default product adds 10 * 50 to revenue and 3 * 50 to cost of goods sold. */
  lemma AddUnitShiftsTotals(prev: CalculatorInputs, freshId: UnitId)
    ensures var r := ComputeResults(AddUnit(prev, freshId));
            var r0 := ComputeResults(prev);
            r.revenue == r0.revenue + 500.0 && r.cogs == r0.cogs + 150.0
            && r.grossProfit == r0.grossProfit + 350.0
  {
    var units := prev.productUnits;
    assert AddUnit(prev, freshId).productUnits == units + [NewProduct(freshId)];
    SumAppend(units, [NewProduct(freshId)], LineRevenue);
    SumAppend(units, [NewProduct(freshId)], LineCost);
  }

  /** Removing an existing item takes exactly its contribution out of revenue and cost of goods sold. */
  lemma RemoveUnitShiftsTotals(prev: CalculatorInputs, index: int)
    requires 0 <= index < |prev.productUnits|
    ensures var u := prev.productUnits[index];
            var r := ComputeResults(RemoveUnit(prev, index));
            var r0 := ComputeResults(prev);
            r.revenue == r0.revenue - LineRevenue(u) && r.cogs == r0.cogs - LineCost(u)
  {
    SumRemove(prev.productUnits, index, LineRevenue);
    SumRemove(prev.productUnits, index, LineCost);
  }

  /** Changing shipping cost or tax rate leaves revenue, cost of goods sold and gross profit alone. */
  lemma SetGlobalKeepsTotals(prev: CalculatorInputs, field: GlobalField, value: real)
    ensures var r := ComputeResults(SetGlobal(prev, field, value));
            var r0 := ComputeResults(prev);
            r.revenue == r0.revenue && r.cogs == r0.cogs && r.grossProfit == r0.grossProfit
  {
  }

  /** The seeded state: revenue 1500, COGS 500, gross 1000, pre-tax 950, tax 190, after-tax 760. */
  lemma InitialResults(seedId: UnitId)
    ensures ComputeResults(InitialInputs(seedId))
            == CalculationResults(1500.0, 500.0, 1000.0, 950.0, 190.0, 760.0)
  {
    var units := InitialInputs(seedId).productUnits;
    assert units[1..] == [];
    assert Sum(units, LineRevenue) == LineRevenue(units[0]) + Sum([], LineRevenue);
    assert LineRevenue(units[0]) == 1500.0;
    assert Sum(units, LineCost) == 500.0;
  }

  /** A default product with no shipping and no tax: all of the gross profit of 350 is kept. */
  lemma NoShippingNoTaxResults(id: UnitId)
    ensures var r := ComputeResults(CalculatorInputs([NewProduct(id)], 0.0, 0.0));
            r.incomeTax == 0.0 && r.grossProfit == 350.0 && r.netProfitAfterTax == 350.0
  {
    var units := [NewProduct(id)];
    assert units[1..] == [];
    assert Sum(units, LineRevenue) == LineRevenue(units[0]) + Sum([], LineRevenue);
    assert Sum(units, LineCost) == LineCost(units[0]) + Sum([], LineCost);
  }
}
