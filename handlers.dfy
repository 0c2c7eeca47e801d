/**
 * The four state handlers of the calculator and its seeded initial state.
 * Each handler is a function from the previous inputs to the next inputs;
 * none of them mutates the value it is given.
 */
module Handlers {
  import opened Types

  /** An editable field of a product unit together with its new value; the id is not editable. */
  datatype FieldEdit =
    | Name(newName: string)
    | SellingPrice(newPrice: real)
    | CostPerUnit(newCost: real)
    | UnitsSold(newUnits: int)

  /** The two shared numbers that the global-input handler can replace. */
  datatype GlobalField = ShippingCosts | TaxRate

  /** No two line items share an id. */
  predicate UniqueIds(units: seq<ProductUnit>) {
    forall i, j :: 0 <= i < j < |units| ==> units[i].id != units[j].id
  }

  /** No line item carries the id `id`. */
  predicate IdFresh(units: seq<ProductUnit>, id: UnitId) {
    forall k :: 0 <= k < |units| ==> units[k].id != id
  }

  /** The state the calculator starts in: one seeded product, shipping 50, tax 20%. */
  function InitialInputs(seedId: UnitId): (r: CalculatorInputs)
    ensures |r.productUnits| == 1 && UniqueIds(r.productUnits)
    ensures var u := r.productUnits[0];
            u.id == seedId && u.name == "FidgiPop Classic" && u.sellingPrice == 15.0
            && u.costPerUnit == 5.0 && u.unitsSold == 100
    ensures r.shippingCosts == 50.0 && r.taxRate == 20.0
  {
    CalculatorInputs(
      [ProductUnit(seedId, "FidgiPop Classic", 15.0, 5.0, 100)],
      50.0,
      20.0)
  }

  /** Copy of `u` with the one field named by `edit` replaced. */
  function ApplyEdit(u: ProductUnit, edit: FieldEdit): (r: ProductUnit)
    ensures r.id == u.id
    ensures r.name == (if edit.Name? then edit.newName else u.name)
    ensures r.sellingPrice == (if edit.SellingPrice? then edit.newPrice else u.sellingPrice)
    ensures r.costPerUnit == (if edit.CostPerUnit? then edit.newCost else u.costPerUnit)
    ensures r.unitsSold == (if edit.UnitsSold? then edit.newUnits else u.unitsSold)
  {
    match edit
    case Name(n) => u.(name := n)
    case SellingPrice(p) => u.(sellingPrice := p)
    case CostPerUnit(c) => u.(costPerUnit := c)
    case UnitsSold(k) => u.(unitsSold := k)
  }

  /** Replaces one field of the item at `index`; every other item and both globals stay as they were. */
  function UpdateUnit(prev: CalculatorInputs, index: int, edit: FieldEdit): (next: CalculatorInputs)
    requires 0 <= index < |prev.productUnits|
    ensures |next.productUnits| == |prev.productUnits|
    ensures next.productUnits[index] == ApplyEdit(prev.productUnits[index], edit)
    // follows from the clause above and ApplyEdit's id clause; stated here for callers
    ensures next.productUnits[index].id == prev.productUnits[index].id
    ensures forall j :: 0 <= j < |prev.productUnits| && j != index ==>
              next.productUnits[j] == prev.productUnits[j]
    ensures next.shippingCosts == prev.shippingCosts && next.taxRate == prev.taxRate
  {
    prev.(productUnits := prev.productUnits[index := ApplyEdit(prev.productUnits[index], edit)])
  }

  /** The default product appended by the add handler. */
  function NewProduct(id: UnitId): (u: ProductUnit)
    ensures u.id == id && u.name == "New Product"
    ensures u.sellingPrice == 10.0 && u.costPerUnit == 3.0 && u.unitsSold == 50
  {
    ProductUnit(id, "New Product", 10.0, 3.0, 50)
  }

  /** Appends a default product carrying `freshId`; the old items stay an unchanged prefix. */
  function AddUnit(prev: CalculatorInputs, freshId: UnitId): (next: CalculatorInputs)
    ensures |next.productUnits| == |prev.productUnits| + 1
    ensures next.productUnits[..|prev.productUnits|] == prev.productUnits
    ensures next.productUnits[|prev.productUnits|] == NewProduct(freshId)
    ensures next.shippingCosts == prev.shippingCosts && next.taxRate == prev.taxRate
  {
    prev.(productUnits := prev.productUnits + [NewProduct(freshId)])
  }

  /** The elements of `s` whose position differs from `index`, in order: a filter on position. */
  function DropPosition<T>(s: seq<T>, index: int): (r: seq<T>)
    ensures |r| == if 0 <= index < |s| then |s| - 1 else |s|
    ensures forall k :: 0 <= k < |r| ==> r[k] in s
  {
    if |s| == 0 then []
    else (if index == 0 then [] else [s[0]]) + DropPosition(s[1..], index - 1)
  }

  /** Filtering out an existing position splices it out of the sequence. */
  lemma {:induction false} DropPositionInRange<T>(s: seq<T>, index: int)
    requires 0 <= index < |s|
    ensures DropPosition(s, index) == s[..index] + s[index + 1..]
  {
    if index == 0 {
      assert DropPosition(s, index) == DropPosition(s[1..], -1);
      DropPositionOutOfRange(s[1..], -1);
    } else {
      DropPositionInRange(s[1..], index - 1);
      assert s[1..][..index - 1] == s[1..index];
      assert s[1..][index..] == s[index + 1..];
      assert s[..index] == [s[0]] + s[1..index];
    }
  }

  /** Filtering out a position the sequence does not have keeps every element. */
  lemma {:induction false} DropPositionOutOfRange<T>(s: seq<T>, index: int)
    requires index < 0 || index >= |s|
    ensures DropPosition(s, index) == s
  {
    if |s| > 0 {
      DropPositionOutOfRange(s[1..], index - 1);
      assert s == [s[0]] + s[1..];
    }
  }

  /** Both cases of the positional filter at once, for callers that do not split on the index. */
  lemma DropPositionSplices<T>(s: seq<T>, index: int)
    ensures 0 <= index < |s| ==> DropPosition(s, index) == s[..index] + s[index + 1..]
    ensures !(0 <= index < |s|) ==> DropPosition(s, index) == s
  {
    if 0 <= index < |s| {
      DropPositionInRange(s, index);
    } else {
      DropPositionOutOfRange(s, index);
    }
  }

  /** Deletes the item at `index`; an index that names no item leaves the list as it was. */
  function RemoveUnit(prev: CalculatorInputs, index: int): (next: CalculatorInputs)
    ensures 0 <= index < |prev.productUnits| ==>
              next.productUnits == prev.productUnits[..index] + prev.productUnits[index + 1..]
    ensures !(0 <= index < |prev.productUnits|) ==> next.productUnits == prev.productUnits
    ensures next.shippingCosts == prev.shippingCosts && next.taxRate == prev.taxRate
  {
    DropPositionSplices(prev.productUnits, index);
    prev.(productUnits := DropPosition(prev.productUnits, index))
  }

  /** Replaces shipping cost or tax rate; the item list and the other number stay as they were. */
  function SetGlobal(prev: CalculatorInputs, field: GlobalField, value: real): (next: CalculatorInputs)
    ensures next.productUnits == prev.productUnits
    ensures next.shippingCosts == (if field == ShippingCosts then value else prev.shippingCosts)
    ensures next.taxRate == (if field == TaxRate then value else prev.taxRate)
  {
    match field
    case ShippingCosts => prev.(shippingCosts := value)
    case TaxRate => prev.(taxRate := value)
  }

  /** Adding a unit and then removing at the old length gives back the very same inputs. */
  lemma AddThenRemoveRestores(prev: CalculatorInputs, freshId: UnitId)
    ensures RemoveUnit(AddUnit(prev, freshId), |prev.productUnits|) == prev
  {
  }

  /** Appending an item whose id is fresh keeps the ids unique. */
  lemma AddUnitKeepsIdsUnique(prev: CalculatorInputs, freshId: UnitId)
    requires UniqueIds(prev.productUnits) && IdFresh(prev.productUnits, freshId)
    ensures UniqueIds(AddUnit(prev, freshId).productUnits)
  {
  }

  /** Editing a field never touches an id, so unique ids stay unique. */
  lemma UpdateUnitKeepsIdsUnique(prev: CalculatorInputs, index: int, edit: FieldEdit)
    requires 0 <= index < |prev.productUnits|
    requires UniqueIds(prev.productUnits)
    ensures UniqueIds(UpdateUnit(prev, index, edit).productUnits)
  {
  }

  /** Removing an item keeps the ids of the remaining items unique. */
  lemma RemoveUnitKeepsIdsUnique(prev: CalculatorInputs, index: int)
    requires UniqueIds(prev.productUnits)
    ensures UniqueIds(RemoveUnit(prev, index).productUnits)
  {
  }
}
