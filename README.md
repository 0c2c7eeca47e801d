# Profitability calculator, modelled in Dafny

The calculator holds a list of product line items (name, selling price, cost
per unit, units sold) plus two shared numbers, the shipping cost and the tax
rate. Four handlers turn the previous state into the next one:

- edit one field of an item;
- append a default item;
- remove an item by position;
- replace a shared number.

From the current state a pure derivation computes six figures: revenue, cost
of goods sold (COGS), gross profit, net profit before tax, income tax and net
profit after tax.

The model has three modules:

- `Types` (`types.dfy`) holds the three records as datatypes.
- `Handlers` (`handlers.dfy`) holds the seeded initial state, the four handlers as functions from old inputs to new inputs, and the lemmas about them.
- `Results` (`results.dfy`) holds the derivation and the lemmas that relate it to the handlers.

Numbers are exact `real`s; `unitsSold` is an `int`. The application fills an
item's id with a random UUID. Here the id is a `string` that the caller
supplies (`seedId`, `freshId`).

The array `reduce` calls are modelled as a left fold (`Reduce`) from an
accumulator. Its contract ties the fold to an independent recursive sum
(`Sum`). The positional `filter` of the remove handler is modelled as
`DropPosition`. Two lemmas tie it to a splice (`s[..i] + s[i+1..]`) for an
existing position and to the unchanged list for any other index.

Two behaviours of the code shape the contracts:

- The code does not check the tax rate. A negative rate on a positive pre-tax profit gives a negative tax. `IncomeTax` and `TaxBounds` state non-negative tax under `taxRate >= 0`.
- The code treats a missing index differently in edits and in removals. Removal leaves the list unchanged, and the model does the same. For an edit, an in-range index is a precondition here (see "Left out").

## Model

| member | source | states |
|---|---|---|
| `Handlers.InitialInputs` | App.tsx:9-15 | the seeded state has exactly one item, "FidgiPop Classic" at price 15, cost 5 and 100 units, carrying the seed id (so ids are unique); shipping is 50 and the tax rate 20 |
| `Handlers.ApplyEdit` | App.tsx:20-21 | an edit replaces exactly the selected field; the id and the other three fields keep their values |
| `Handlers.UpdateUnit` | App.tsx:17-24 | an in-range edit keeps the length; the edited item is the old one with that field replaced and the same id; every other item and both shared numbers are unchanged |
| `Handlers.NewProduct` | App.tsx:32 | the default product is "New Product" at price 10, cost 3 and 50 units, with the given id |
| `Handlers.AddUnit` | App.tsx:27-35 | length grows by one; the old list is an unchanged prefix; the new last item is the default product with the fresh id; shared numbers unchanged |
| `Handlers.DropPosition` | App.tsx:40 | the positional filter removes one element when the index names a position and none otherwise, and keeps only elements of the input |
| `Handlers.DropPositionInRange` | App.tsx:40 | filtering out an existing position equals splicing it out: `s[..i] + s[i+1..]` |
| `Handlers.DropPositionOutOfRange` | App.tsx:40 | filtering on a negative index or one at or past the end keeps the list as it is |
| `Handlers.DropPositionSplices` | App.tsx:40 | both cases of the positional filter for any index: a splice for an existing position, the unchanged list otherwise |
| `Handlers.RemoveUnit` | App.tsx:37-42 | an in-range removal deletes exactly that position; any other index leaves the list unchanged; shared numbers are unchanged either way |
| `Handlers.SetGlobal` | App.tsx:44-46 | replaces only the chosen shared number; the item list and the other number are unchanged |
| `Handlers.AddThenRemoveRestores` | App.tsx:27-42 | adding an item and then removing at the old length gives back exactly the previous inputs |
| `Handlers.AddUnitKeepsIdsUnique` | App.tsx:27-35 | appending an item with an id not yet in the list keeps all ids distinct |
| `Handlers.UpdateUnitKeepsIdsUnique` | App.tsx:17-24 | editing a field never changes ids, so distinct ids stay distinct |
| `Handlers.RemoveUnitKeepsIdsUnique` | App.tsx:37-42 | removing an item keeps the remaining ids distinct |
| `Results.LineRevenue` | App.tsx:49 | one item's revenue term is price times units sold: zero when either is zero, non-negative when both are |
| `Results.LineCost` | App.tsx:50 | one item's cost term is unit cost times units sold: zero when either is zero, non-negative when both are |
| `Results.Reduce` | App.tsx:49-50 | the left fold from an accumulator, walking the items as `reduce` does, equals the accumulator plus the independent sum of the terms |
| `Results.SumAppend` | App.tsx:49-50 | the sum over a concatenation is the sum of the two sums |
| `Results.SumUpdate` | App.tsx:49-50 | replacing one item changes a sum by the new term minus the old one |
| `Results.SumRemove` | App.tsx:49-50 | deleting one position subtracts exactly that item's term from a sum |
| `Results.SumPermutation` | App.tsx:49-50 | two item lists with the same multiset of items have the same sum |
| `Results.Revenue` | App.tsx:49 | revenue is the sum of selling price times units sold over the items |
| `Results.Cogs` | App.tsx:50 | COGS is the sum of cost per unit times units sold over the items |
| `Results.IncomeTax` | App.tsx:54 | tax is 0 on a zero or negative pre-tax profit and rate percent of a positive one; it is non-negative for a non-negative rate; it is at most the profit for a rate up to 100 |
| `Results.ComputeResults` | App.tsx:48-65 | revenue and COGS are the sums; gross profit is revenue minus COGS; pre-tax profit is gross minus shipping; tax is `IncomeTax` of the pre-tax profit; after-tax profit is pre-tax minus tax |
| `Results.TaxBounds` | App.tsx:53-55 | for any inputs: no tax and after-tax equal to pre-tax on a loss; tax non-negative and after-tax at most pre-tax for a non-negative rate; after-tax between 0 and pre-tax for a rate in 0..100 on a profit |
| `Results.ResultsFollowTotals` | App.tsx:52-55 | two inputs with equal revenue and COGS sums and equal shared numbers give identical results |
| `Results.EmptyListResults` | App.tsx:48-65 | with no items revenue, COGS and gross profit are 0, pre-tax profit is minus the shipping cost, and with non-negative shipping there is no tax |
| `Results.TotalsAppend` | App.tsx:49-50 | revenue and COGS are additive over concatenated item lists |
| `Results.TotalsNonNegative` | App.tsx:49-50 | when every item has a non-negative price, cost and count, revenue and COGS are non-negative |
| `Results.ResultsIgnoreOrder` | App.tsx:48-65 | inputs whose items are a permutation of each other, with the same shared numbers, give identical results |
| `Results.UpdateUnitShiftsTotals` | App.tsx:17-24 | editing one item moves revenue and COGS by that item's own change and nothing else |
| `Results.RenameKeepsResults` | App.tsx:17-24 | renaming an item leaves all six results unchanged |
| `Results.AddUnitShiftsTotals` | App.tsx:27-35 | adding the default item adds 500 to revenue, 150 to COGS and 350 to gross profit |
| `Results.RemoveUnitShiftsTotals` | App.tsx:37-42 | removing an existing item subtracts exactly its revenue and its COGS |
| `Results.SetGlobalKeepsTotals` | App.tsx:44-46 | changing shipping cost or tax rate leaves revenue, COGS and gross profit unchanged |
| `Results.InitialResults` | App.tsx:9-15 | the seeded state yields revenue 1500, COGS 500, gross profit 1000, pre-tax profit 950, tax 190 and after-tax profit 760 |
| `Results.NoShippingNoTaxResults` | App.tsx:48-65 | one default item with no shipping and a zero rate keeps its whole gross profit of 350, with no tax |

## Left out

- `Handlers.UpdateUnit`: an in-range index is a precondition. In the code, a negative index writes a non-element property, so the visible list is unchanged. An index at or past the end stores a partial item holding only the edited field, and the sums then become NaN. Neither outcome is modelled.
- The field selector and its value are one datatype (`FieldEdit`). A value of the wrong kind for a field, such as text for a price, cannot be expressed. The code's untyped field write does accept it.
- `unitsSold` is an integer. In the code it is an arbitrary number, and fractional counts are not modelled.
- Arithmetic is exact over the reals. IEEE-754 double rounding, NaN and infinities are not modelled.
- Random UUID generation is a parameter. `AddUnitKeepsIdsUnique` assumes the new id is not in the current list. That an id is never reused after its item is removed is not modelled, because the model keeps no history of ids handed out.
- React state hooks, memoisation and dependency arrays are not modelled. Each handler is a function from the previous inputs to the next. The results are recomputed from the inputs on every call.
- Rendering (the page layout, the background image, the header, the form and the results display) is not modelled. The form and results components are not part of this model.
