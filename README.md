# wanna-erp cost and shipping core, in Dafny

wanna-erp is a small ERP front end for a shop that sells assembled products.
Every product has a BOM table (bill of materials): a list of line items, each
with a quantity and a unit cost. A line is either typed in by hand or
"shared", which means it points at a shared-material document whose unit
cost is kept in one place. Products can also be sold as custom combinations
(bundles) of several BOM tables. Around this data the application has pages
that:

- edit BOM tables and shared materials,
- cost them (with 5% tax on taxed lines),
- price them (dealer, special and bottom price against a target margin),
- compute profit margins against the website price,
- work out a per-order cost rate, by hand or from an order spreadsheet,
- turn an uploaded order sheet into shipments with carton sizes and SKU
  statistics for picking.

This project models those computations as Dafny functions, methods and one
class per stateful page, and proves what the pages promise about them.

The modules follow the source files:

| module | source file | form |
|---|---|---|
| `Js` | JavaScript built-ins the pages rely on | values |
| `Seqs` | `filter`, `map`, `reduce`, `find`, `indexOf`, `sort` | values |
| `Catalog` | the BOM and bundle loading of `src/pages/ShippingPage.js` | methods over values |
| `BomItems` | the line item shared by the two BOM editors | values |
| `NewBomTable` | `src/pages/NewBomTable.js` | values, loop methods |
| `EditBomTable` | `src/pages/EditBomTable.js` | values, loop methods |
| `EditSharedMaterials` | `src/pages/EditSharedMaterials.js` | values |
| `CategoryManagement` | `src/components/CategoryManagement.js` | a class over a map |
| `CustomCombination` | `src/components/CustomCombinationAnalysis.js` | values |
| `PricingAnalysis` | `src/pages/PricingAnalysis.js` | values, one method |
| `SavedPricing` | `src/components/SaviedPrcingPage.js` | loop methods |
| `ProfitAnalysis` | `src/components/ProfitAnalysis.js` | values |
| `OrderCostRate` | `src/components/OrderCostRatePage.js` | values |
| `ExcelAnalysis` | `src/pages/ExcelAnalysisPage.js` | loop methods |
| `ShippingRows` | `calculateBoxTypes` row processing, `src/pages/ShippingPage.js` | loop methods |
| `ShippingGroups` | `calculateBoxTypes` grouping into shipments | loop methods |
| `SkuStats` | `skuStatsArray` and `calculateTotalSkuCounts` | loop methods |
| `ShippingPage` | the page state of `src/pages/ShippingPage.js` | a class |

**JavaScript values.** Values read from documents and form fields are of type
`Js.Value`. This type covers strings, numbers, NaN, the text `toFixed` gives,
booleans, document references, `null` and `undefined`. The model uses the
JavaScript meaning of truthiness, `||` and `===`.

**The runtime parameter.** Number parsing is a parameter, `Js.Runtime`. It
carries `parseFloat`, `parseInt`, `Number` and number-to-string. Nothing here
depends on how a particular engine reads digits. Where a property needs a
fact about parsing, the lemma requires it. The usual one is that `""` does
not parse.

**Other parameters.** These are also passed in rather than modelled:

- the database contents: materials, categories, BOM and bundle documents;
- the signed-in user;
- the clock;
- the spreadsheet rows;
- the `isThursday` date test.

**Numbers.** Amounts are `real`: the model has exact arithmetic where the
pages use floating point.

## Model

| member | source | states |
|---|---|---|
| Js.NumOr0 | src/pages/NewBomTable.js:142-143 | `parseFloat(x) \|\| 0` is the parsed number, and 0 whenever parsing gives NaN |
| Js.FloatValue | src/pages/PricingAnalysis.js:232 | a parsed number as a value is truthy exactly when it parsed to a nonzero number |
| Js.PropertyKey | src/pages/NewBomTable.js:181 | a string used as a dictionary key or path segment is that string itself |
| Js.TrimSpec | src/config/userRoles.js:8 | `trim` leaves no white space at either end, returns a substring of its input, and gives "" exactly for an all-white-space string |
| Js.TrimTrimmed | src/config/userRoles.js:8 | trimming text without surrounding white space gives it back |
| Js.Split | src/config/userRoles.js:8 | `split(c)` returns at least one part, and no part contains the separator |
| Js.SplitSpec | src/config/userRoles.js:8 | joining the parts of `split(c)` with c gives the text back, and there is one part more than there are separators |
| Js.IncludesSpec | src/pages/ExcelAnalysisPage.js:187-188 | `includes(sub)` holds exactly when sub occurs at some position |
| Js.IncludesEmpty | src/components/ProfitAnalysis.js:161-171 | every string includes the empty search term |
| Js.Lower | src/components/SaviedPrcingPage.js:175-176 | `toLowerCase` keeps the length, lowers each letter A-Z, and leaves no upper-case ASCII letter |
| Js.LexLeTotal | src/pages/ShippingPage.js:408-410 | the string order used for `localeCompare` relates any two strings one way or the other |
| Js.LexLeTrans | src/pages/ShippingPage.js:408-410 | that order is transitive |
| Js.LexLeAntisym | src/pages/ShippingPage.js:408-410 | strings that are ordered both ways are equal, so sorted keys are strictly ordered |
| Js.LexLeRefl | src/pages/ShippingPage.js:408-410 | every string may precede itself, so equal keys are allowed next to each other |
| Seqs.Without | src/components/CustomCombinationAnalysis.js:133-138 | `filter((_, i) => i !== index)` drops exactly the element at the index, keeps the rest in order, and changes nothing for an index out of range |
| Seqs.SumWithout | src/pages/NewBomTable.js:134-137 | removing one element takes exactly its share off a sum |
| Seqs.SumPermutation | src/pages/ShippingPage.js:570 | a sum does not depend on the order of its terms, so the sorts change no total |
| Seqs.FindFirst | src/pages/ShippingPage.js:284 | `find` returns the first element that passes the test, and nothing only when none does |
| Seqs.IndexOf | src/pages/ShippingPage.js:379 | `indexOf` is the first position of the element, and -1 exactly when it is absent |
| Seqs.KeepFirstIsDedupe | src/pages/ShippingPage.js:379 | `filter((v, i, self) => self.indexOf(v) === i)` keeps the first occurrence of each element and nothing else |
| Seqs.Dedupe | src/pages/ShippingPage.js:376-379 | de-duplication keeps every element, adds none, and leaves no repeats |
| Seqs.SortBy | src/pages/ShippingPage.js:408-410 | the sort returns a permutation of its input |
| Seqs.SortBySpec | src/pages/ShippingPage.js:408-410 | under a total preorder the sort returns a sorted permutation of its input |
| Seqs.Filter | src/components/ProfitAnalysis.js:161-171 | `filter` keeps only elements that pass, keeps every one that passes, and returns as many as pass; FilterConcat fixes their order |
| Seqs.FilterConcat | src/components/ProfitAnalysis.js:161-171 | the kept elements of a concatenation are those of the first part followed by those of the second, so `filter` keeps order and multiplicity |
| Seqs.FilterSingle | src/components/ProfitAnalysis.js:161-171 | a single element is kept exactly when it passes |
| Seqs.FilterSnoc | src/components/ProfitAnalysis.js:161-171 | appending one element to what is filtered appends it to the result exactly when it passes |
| Seqs.FilterSame | src/pages/ShippingPage.js:547-549 | two tests that agree on every element keep the same elements |
| Seqs.Map | src/pages/NewBomTable.js:179-189 | `map` has one image per element, at the same position |
| Seqs.PartitionSum | src/pages/ShippingPage.js:382-405 | splitting rows into the groups of their distinct keys loses and duplicates nothing: the group sums add up to the whole sum |
| BomItems.WithField | src/pages/NewBomTable.js:117 | `item[field] = value` sets exactly that field and keeps the others |
| BomItems.AsStored | src/pages/ShippingPage.js:70-92 | a saved item read back as a line keeps its shared flag, unit cost and quantity, and a missing tax flag reads as undefined |
| BomItems.StoredSubtotal | src/pages/NewBomTable.js:179-189 | a stored item reads back with the quantity times unit cost the editor used, through the material reference when it is shared, provided the material document holds the cost the editor copied |
| Catalog.LineCostSpec | src/pages/ShippingPage.js:69-98 | a line costs its quantity times its unit cost, times 1.05 exactly when it is taxed |
| Catalog.MissingMaterialIsFree | src/pages/ShippingPage.js:70-83 | a shared line whose material document is missing costs nothing |
| Catalog.LineCostNonNegative | src/pages/ShippingPage.js:89-92 | a line with non-negative quantity and unit cost has non-negative cost |
| Catalog.ComputeBomCost | src/pages/ShippingPage.js:69-98 | the `cost += itemCost + tax` loop returns the sum of the line costs |
| Catalog.BomCostConcat | src/pages/ShippingPage.js:69-98 | the cost of a table made of two parts is the sum of the parts' costs |
| Catalog.BomCostReorder | src/pages/ShippingPage.js:69-98 | reordering the lines of a table does not change its cost |
| Catalog.OrElse | src/pages/ShippingPage.js:105-107 | `v \|\| d` is v when v is truthy and d otherwise |
| Catalog.FetchBomTables | src/pages/ShippingPage.js:102-109 | one entry per BOM document, in order, with its id and volume, code and name defaulting to '', and its cost rolled up from its lines |
| Catalog.CategoryOf | src/components/ProfitAnalysis.js:85-91 | a category reference shows the referenced name, or '未分類' when the document is missing; a plain name shows itself; anything else shows '未分類' |
| Catalog.BundleQuantity | src/pages/ShippingPage.js:142 | `product.quantity \|\| 1` is never 0, and is the stored quantity whenever that is nonzero |
| Catalog.ComponentFor | src/pages/ShippingPage.js:137-187 | a product line adds one component when its BOM document exists and none otherwise |
| Catalog.ComponentsWellBuilt | src/pages/ShippingPage.js:145-186 | every component comes from an existing BOM document: that table's unit volume and unit cost, a nonzero quantity, and totals equal to unit values times quantity |
| Catalog.ComponentsConcat | src/pages/ShippingPage.js:133-188 | the components of two runs of product lines are the components of each, one after the other |
| Catalog.ComponentsCount | src/pages/ShippingPage.js:133-188 | exactly the product lines whose BOM exists become components |
| Catalog.BundleTotals | src/pages/ShippingPage.js:173-174 | the bundle volume and cost over its components are the quantity-weighted sums over its product lines, a missing BOM counting as nothing |
| Catalog.ResolveProduct | src/pages/ShippingPage.js:137-170 | the per-product fetch builds exactly the component that product line calls for |
| Catalog.AddProduct | src/pages/ShippingPage.js:173-186 | one turn of the product loop appends that line's component and keeps both running totals equal to the sums over the components |
| Catalog.FetchBundle | src/pages/ShippingPage.js:121-200 | a bundle entry keeps its id, defaults its code to '' and its name to '未命名組合', and its volume and cost are the sums over its components |
| Catalog.FetchBundles | src/pages/ShippingPage.js:121-200 | one entry per bundle document, in order, keeping its id, with productCode `|| ''` and name `|| '未命名組合'`, and whose volume and cost are the quantity-weighted sums over its existing product lines |
| NewBomTable.AddItem | src/pages/NewBomTable.js:103-112 | addItem keeps every item and appends one blank, non-shared, untaxed item |
| NewBomTable.UpdateItem | src/pages/NewBomTable.js:115-131 | updateItem replaces only the item at the index, with the item an edit of that field calls for |
| NewBomTable.ToggleShared | src/pages/NewBomTable.js:117-121 | turning isShared on or off stores the flag, blanks the name, unit cost and material reference, and keeps quantity and tax flag |
| NewBomTable.PickMaterial | src/pages/NewBomTable.js:122-129 | picking the material of a shared item copies the name, cost and id of the first loaded material with that id; when none has it only the reference changes |
| NewBomTable.PlainEdit | src/pages/NewBomTable.js:115-117 | every other edit only stores the value |
| NewBomTable.PickedMaterialMatches | src/pages/NewBomTable.js:122-129 | after picking a loaded material, the item agrees with that material's document |
| NewBomTable.TotalCostSplit | src/pages/NewBomTable.js:140-147 | the total is the sum of all subtotals plus 5% of the taxed ones |
| NewBomTable.TotalAfterAdd | src/pages/NewBomTable.js:103-112 | a fresh item costs nothing, so adding one leaves the total as it was |
| NewBomTable.TotalAfterDelete | src/pages/NewBomTable.js:134-137 | deleting an item takes exactly that item's cost off the total |
| NewBomTable.SaveItem | src/pages/NewBomTable.js:179-189 | a saved item keeps the shared and tax flags and stores the quantity as `parseFloat \|\| 0` |
| NewBomTable.ProcessedItemsSpec | src/pages/NewBomTable.js:179-189 | saving writes one entry per item, in order; a shared one refers to its material document for both name and cost, any other keeps its name and stores its unit cost parsed |
| NewBomTable.SavedItemCost | src/pages/NewBomTable.js:179-189 | a saved item, read back by the costing pages, costs what the editor charged for it |
| NewBomTable.SavedTableCost | src/pages/NewBomTable.js:140-189 | the stored table costs exactly the total the editor showed |
| EditBomTable.AddItem | src/pages/EditBomTable.js:102-104 | addItem keeps every item and appends one blank item with no tax field |
| EditBomTable.HandleItemChange | src/pages/EditBomTable.js:85-100 | handleItemChange replaces only the item at the index, with the item an edit of that field calls for |
| EditBomTable.ToggleShared | src/pages/EditBomTable.js:88-91 | turning isShared on or off clears the name, unit cost and reference and keeps the rest |
| EditBomTable.NameSharedItem | src/pages/EditBomTable.js:92-98 | naming a shared item after a loaded material copies the cost and id of the first one with that name; any other name only changes the name |
| EditBomTable.PlainEdit | src/pages/EditBomTable.js:85-87 | every other edit only stores the value |
| EditBomTable.TotalIgnoresTax | src/pages/EditBomTable.js:110-116 | the tax flag plays no part in this page's total |
| EditBomTable.TotalAfterAdd | src/pages/EditBomTable.js:102-104 | a fresh item costs nothing, so adding one leaves the total as it was |
| EditBomTable.TotalAfterDelete | src/pages/EditBomTable.js:106-108 | deleting an item takes exactly its subtotal off the total |
| EditBomTable.SaveItem | src/pages/EditBomTable.js:134-141 | a saved item keeps its name and shared flag, stores the quantity as `parseFloat \|\| 0`, and has no tax flag |
| EditBomTable.ProcessedItemsSpec | src/pages/EditBomTable.js:134-141 | one entry is written per item with a name and a quantity, each such item's saved form is among them, and none has a tax flag |
| EditBomTable.ProcessedItemsSnoc | src/pages/EditBomTable.js:134-141 | the items are written in the editor's order: no item gives none, and one more item appends its saved form exactly when it is kept |
| EditBomTable.SavedItemCost | src/pages/EditBomTable.js:134-141 | a saved item is costed untaxed from then on, at the editor's subtotal |
| EditBomTable.SavedTableCost | src/pages/EditBomTable.js:110-141 | the stored table costs the page's total over the items it keeps |
| EditBomTable.SavedKeptCost | src/pages/EditBomTable.js:134-141 | saving items whose costs match their materials and reading them back keeps their total |
| EditSharedMaterials.Derive | src/pages/EditSharedMaterials.js:49-59 | the effect sets the unit cost to the one derived from the inputs and touches nothing else |
| EditSharedMaterials.DerivedUnitCostSpec | src/pages/EditSharedMaterials.js:49-59 | the unit cost is blank when an input is blank; when it is a number, it times the product units gives back the purchase cost; "Infinity" only for zero units |
| EditSharedMaterials.DeriveIdempotent | src/pages/EditSharedMaterials.js:49-59 | deriving again changes nothing, so the effect settles after one run |
| EditSharedMaterials.EditKeepsConsistent | src/pages/EditSharedMaterials.js:80-82 | every edit followed by the effect keeps the shown unit cost derived from the inputs |
| EditSharedMaterials.SubmitSpec | src/pages/EditSharedMaterials.js:84-126 | a save happens exactly with a user and the three inputs; both stamps are the same instant; the history entry points at the material, repeats the new values and keeps the loaded ones; the author name falls back to '管理員' |
| EditSharedMaterials.SavedUnitCostAgrees | src/pages/EditSharedMaterials.js:105-113 | a saved material whose unit cost was derived as a number has unit cost times product units equal to its purchase cost |
| CategoryManagement.ClashesSpec | src/components/CategoryManagement.js:42-47 | the clash test ignores the category being edited, and for a new category it means the id or the name is already taken |
| CategoryManagement.AddSpec | src/components/CategoryManagement.js:52-66 | an add succeeds exactly for a non-blank, unused id and name; it then adds just that category, and otherwise changes nothing |
| CategoryManagement.EditAccepted | src/components/CategoryManagement.js:77-98 | an edit succeeds exactly when id and name are non-blank, no other category has either, and an unchanged id still exists |
| CategoryManagement.EditSpec | src/components/CategoryManagement.js:77-98 | a successful edit maps the new id to the name, drops the original id and keeps every other category; a refused one changes nothing |
| CategoryManagement.EditIgnoresOwnEntry | src/components/CategoryManagement.js:82 | the category being edited never clashes with itself, so keeping its name under its own or a free id is accepted |
| CategoryManagement.EditUnchanged | src/components/CategoryManagement.js:94-97 | saving an unchanged category leaves the collection as it was |
| CategoryManagement.EditResult | src/components/CategoryManagement.js:82-98 | a successful edit's collection is the old one without the original id plus the new entry, and no other category has the name |
| CategoryManagement.EditResultMap | src/components/CategoryManagement.js:88-98 | a successful edit leaves the collection without the original id and with the new id mapped to the name |
| CategoryManagement.EditResultNames | src/components/CategoryManagement.js:82-86 | after a successful edit no category other than the edited one has the new name |
| CategoryManagement.EditKeepsCount | src/components/CategoryManagement.js:88-98 | renaming an existing category keeps the number of categories |
| CategoryManagement.DeleteSpec | src/components/CategoryManagement.js:108-114 | a delete removes exactly the chosen category, and an empty selection removes nothing |
| CategoryManagement.AddKeepsUniqueNames | src/components/CategoryManagement.js:57-61 | adding keeps category names unique |
| CategoryManagement.EditKeepsUniqueNames | src/components/CategoryManagement.js:82-86 | editing keeps category names unique |
| CategoryManagement.DeleteKeepsUniqueNames | src/components/CategoryManagement.js:108-114 | deleting keeps category names unique |
| CategoryManagement.CategoryCollection.constructor | src/components/CategoryManagement.js:23-30 | the collection starts as the fetched documents |
| CategoryManagement.CategoryCollection.HandleAddCategory | src/components/CategoryManagement.js:49-74 | the collection and outcome after handleAddCategory are those of the add rule |
| CategoryManagement.CategoryCollection.HandleEditCategory | src/components/CategoryManagement.js:76-106 | the collection after handleEditCategory, including the delete-then-set rename, is that of the edit rule |
| CategoryManagement.CategoryCollection.HandleDeleteCategory | src/components/CategoryManagement.js:108-120 | the collection after handleDeleteCategory is that of the delete rule |
| CustomCombination.ResolveLine | src/components/CustomCombinationAnalysis.js:50-61 | loading a line keeps its shared flag, quantity and tax flag |
| CustomCombination.ResolveLines | src/components/CustomCombinationAnalysis.js:50-62 | a loaded table has one line per stored line |
| CustomCombination.ResolveLineCost | src/components/CustomCombinationAnalysis.js:31-62 | a line loads exactly when it is not a shared reference to a missing material, and then costs what the shipping page charges for it |
| CustomCombination.ResolveLinesSome | src/components/CustomCombinationAnalysis.js:50-62 | a table loads exactly when each of its lines does |
| CustomCombination.ResolvedTableCost | src/components/CustomCombinationAnalysis.js:31-37 | a loaded table costs on this page what its BOM costs on the shipping page |
| CustomCombination.TotalCostSpec | src/components/CustomCombinationAnalysis.js:71 | a bundle has a total exactly when every product line loads, and the total is then the sum of the product costs |
| CustomCombination.ProductCostAgrees | src/components/CustomCombinationAnalysis.js:64 | for a loaded product with nonzero quantity, this page's cost is the shipping page's |
| CustomCombination.LoadedProductCost | src/components/CustomCombinationAnalysis.js:64 | a product that loads costs its loaded table's cost times its quantity |
| CustomCombination.ShippingProductCost | src/pages/ShippingPage.js:145-170 | on the shipping page a product with a BOM and nonzero quantity costs its table's cost times its quantity |
| CustomCombination.MissingProductFails | src/components/CustomCombinationAnalysis.js:42-79 | a product line without a BOM document leaves its bundle without a total; the throw fails the whole bundle list, which the model does not build |
| CustomCombination.AddProduct | src/components/CustomCombinationAnalysis.js:126-131 | handleAddProduct keeps every line and appends one with no category, no product and quantity 1 |
| CustomCombination.HandleProductChange | src/components/CustomCombinationAnalysis.js:140-151 | handleProductChange replaces only the line at the index |
| CustomCombination.ProductChangeSpec | src/components/CustomCombinationAnalysis.js:140-151 | a change sets exactly the chosen field, a new category also clears the product, and other lines are untouched |
| CustomCombination.QuantityInput | src/components/CustomCombinationAnalysis.js:330 | the quantity input is never 0: the number typed, or 1 when it is unreadable or 0 |
| CustomCombination.SaveCombinationSpec | src/components/CustomCombinationAnalysis.js:153-168 | a save needs a name with some non-space character and at least one line, every line with a product; the lines are then written as they are |
| PricingAnalysis.WithPrice | src/pages/PricingAnalysis.js:266 | setting one tier's price changes no other price, no margin, and not the rate, cost or id |
| PricingAnalysis.WithMargin | src/pages/PricingAnalysis.js:277 | setting one tier's margin changes no other margin, no price, and not the rate, cost or id |
| PricingAnalysis.CalculatePrice | src/pages/PricingAnalysis.js:90-95 | the price is '' exactly when the cost is missing or 0, or the margin is '' or undefined |
| PricingAnalysis.CalculateMargin | src/pages/PricingAnalysis.js:97-101 | the margin is '' exactly when the price or the cost is missing or 0 |
| PricingAnalysis.PriceThenMargin | src/pages/PricingAnalysis.js:90-101 | the margin of the price set for margin m and logistics rate r is m plus 100 r, since the margin ignores logistics |
| PricingAnalysis.MarginThenPrice | src/pages/PricingAnalysis.js:90-101 | the price for a price's own margin, without logistics, is that price |
| PricingAnalysis.CalculatorsRoundTrip | src/pages/PricingAnalysis.js:90-101 | with no logistics rate, the margin of the price computed for margin m is m again |
| PricingAnalysis.UpdateRow | src/pages/PricingAnalysis.js:231-293 | the edited row's copy, assigned field by field, is the row an edit of that field calls for |
| PricingAnalysis.ValueChangeOnlyMatching | src/pages/PricingAnalysis.js:226-229 | HandleValueChange changes only rows with the edited id, and the table keeps its length and order |
| PricingAnalysis.RateChangeSpec | src/pages/PricingAnalysis.js:235-259 | a logistics-rate change stores the rate, keeps every margin, and reprices exactly the tiers whose margin is set |
| PricingAnalysis.PriceEditSpec | src/pages/PricingAnalysis.js:262-272 | a price edit stores the text and, when it reads as a nonzero number, rewrites that tier's margin; nothing else changes |
| PricingAnalysis.MarginEditSpec | src/pages/PricingAnalysis.js:274-287 | a margin edit stores the text and always recomputes that tier's price at the row's rate; nothing else changes |
| PricingAnalysis.MarginEditRoundTrip | src/pages/PricingAnalysis.js:274-287 | after a margin edit on a row with a cost and no logistics rate, the new price's margin is the margin typed |
| PricingAnalysis.ClearValuesSpec | src/pages/PricingAnalysis.js:452-464 | clearing blanks every price, margin and rate, keeps each row's identity, cost, category and website price, and clearing twice is clearing once |
| PricingAnalysis.FilteredSpec | src/pages/PricingAnalysis.js:442-450 | FilteredBomTables keeps exactly the rows whose category or name contains the term, ignoring case, and an empty search keeps them all |
| PricingAnalysis.FilterAll | src/pages/PricingAnalysis.js:442-450 | an empty search keeps the table as it is |
| SavedPricing.ComputeCost | src/components/SaviedPrcingPage.js:94-114 | the cost loop returns the table's cost, NaN once any line is NaN |
| SavedPricing.CostAgrees | src/components/SaviedPrcingPage.js:94-114 | when every material cost reads alike under `Number` and `parseFloat`, the cost is the one the shipping page computes for the same table |
| SavedPricing.LineCostAgrees | src/components/SaviedPrcingPage.js:97-111 | under the same condition each line costs what the shipping page charges for it |
| SavedPricing.PriceRead | src/components/SaviedPrcingPage.js:88-90 | `v ? parseFloat(v) : null` is null exactly for a falsy price |
| SavedPricing.RowIdentity | src/components/SaviedPrcingPage.js:135-154 | the row of a document keeps its id and recomputed cost, and is new exactly when the scheme has no row with that id |
| SavedPricing.RowPricing | src/components/SaviedPrcingPage.js:135-170 | without a saved row the pricing fields stay blank; with one, the first saved row with that id supplies them, a blank saved value staying blank |
| SavedPricing.PriceFlag | src/components/SaviedPrcingPage.js:88-91 | the website price is flagged exactly when the current and saved prices are both set and differ, NaN differing from everything |
| SavedPricing.CostFlag | src/components/SaviedPrcingPage.js:116-118 | the cost is flagged exactly when a saved cost is set (a saved 0 counts as unset) and the two differ by more than 0.01 |
| SavedPricing.PairLeTotal | src/components/SaviedPrcingPage.js:174-183 | the category-then-name order relates any two rows one way or the other |
| SavedPricing.PairLeTrans | src/components/SaviedPrcingPage.js:174-183 | the category-then-name order is transitive |
| SavedPricing.RowLeTotalPreorder | src/components/SaviedPrcingPage.js:174-183 | the comparator of the sort is a total preorder on rows |
| SavedPricing.HandleApply | src/components/SaviedPrcingPage.js:79-183 | the loop pushes one row per BOM document and the sort orders them: the result is Applied, the scheme AppliedSpec describes |
| SavedPricing.AppliedSpec | src/components/SaviedPrcingPage.js:86-183 | Applied has one row per document, is a permutation of the documents' rows, and is sorted by category and then name |
| SavedPricing.AppliedRows | src/components/SaviedPrcingPage.js:86-171 | every applied row is the row of some document, and every document's row is applied |
| ProfitAnalysis.LineCostAgrees | src/components/ProfitAnalysis.js:63-83 | resolving first and reading later costs each line what the shipping page charges, given that "" does not parse |
| ProfitAnalysis.TableCostAgrees | src/components/ProfitAnalysis.js:79-83 | so a table costs what the shipping page computes for it |
| ProfitAnalysis.RowOf | src/components/ProfitAnalysis.js:63-100 | a fetched row keeps the id, costs the table, names it '未命名表格' when unnamed, defaults the website price to '' and shows the category name |
| ProfitAnalysis.CategoryLeTotalPreorder | src/components/ProfitAnalysis.js:102-104 | the by-category comparator is a total preorder |
| ProfitAnalysis.FetchedRowsSpec | src/components/ProfitAnalysis.js:102-104 | the fetched table has one row per document, is a permutation of them, and is sorted by category |
| ProfitAnalysis.WebsitePriceChangeSpec | src/components/ProfitAnalysis.js:121-127 | HandleWebsitePriceChange changes only the website price of the rows with that id; repeating the change is a no-op; an unknown id changes nothing |
| ProfitAnalysis.ProfitMargin | src/components/ProfitAnalysis.js:147-152 | the margin is '-' exactly when the price does not parse or is not positive |
| ProfitAnalysis.NetOfVat | src/components/ProfitAnalysis.js:147-152 | the margin against the price without its 5% VAT is 100 - 105 × cost / price |
| ProfitAnalysis.ProfitMarginSpec | src/components/ProfitAnalysis.js:147-152 | for a positive price the margin is 100 - 105 × cost / price: 100 at zero cost, and not negative exactly when the cost is at most the price net of VAT |
| ProfitAnalysis.ProfitMarginMonotone | src/components/ProfitAnalysis.js:147-152 | a higher cost never gives a higher margin at the same price |
| ProfitAnalysis.NetProfitMargin | src/components/ProfitAnalysis.js:154-159 | the net margin is '-' exactly when the gross one is or the order cost rate is NaN |
| ProfitAnalysis.NetProfitMarginSpec | src/components/ProfitAnalysis.js:154-159 | the net margin is the gross margin less the rate: equal at rate 0 |
| ProfitAnalysis.FilteredSpec | src/components/ProfitAnalysis.js:161-171 | FilteredBomTables keeps exactly the rows matching the term in category, name, cost text or price text, and an empty search keeps all |
| ProfitAnalysis.FilterAll | src/components/ProfitAnalysis.js:161-171 | an empty search keeps the table as it is |
| ProfitAnalysis.PriceTextMatches | src/components/ProfitAnalysis.js:168 | a website price given as text that contains the term makes the row match |
| OrderCostRate.HandleTaxChange | src/components/OrderCostRatePage.js:191-199 | handleTaxChange flips exactly that field's switch |
| OrderCostRate.TaxChangeTwice | src/components/OrderCostRatePage.js:191-199 | flipping a switch twice restores it |
| OrderCostRate.OtherTotalsSpec | src/components/OrderCostRatePage.js:149-156 | the reduce over the other costs carries their sum and 5% of the sum of those with tax on |
| OrderCostRate.NetSum | src/components/OrderCostRatePage.js:149-167 | the other costs net of VAT are their sum less 5% of the taxed ones |
| OrderCostRate.TotalCostSpec | src/components/OrderCostRatePage.js:159-167 | CalculateTotals' total cost is the VAT in the average order value plus every other cost net of its VAT where its switch is on |
| OrderCostRate.CostRateSpec | src/components/OrderCostRatePage.js:170 | CalculateTotals' cost rate is the total cost as a percentage of the average order value, and 0 when there is none |
| OrderCostRate.TaxesSpec | src/components/OrderCostRatePage.js:135-146 | each tax CalculateTotals reports is 5% of its value when its switch is on and 0 otherwise |
| OrderCostRate.DefaultTotals | src/components/OrderCostRatePage.js:128-180 | CalculateTotals of the blank form has zero total cost and zero cost rate |
| OrderCostRate.AddOtherCost | src/components/OrderCostRatePage.js:202-207 | addOtherCost appends one blank, untaxed entry and changes nothing else |
| OrderCostRate.AddOtherCostTotals | src/components/OrderCostRatePage.js:202-207 | a new entry adds nothing to the totals |
| OrderCostRate.UpdateOtherCost | src/components/OrderCostRatePage.js:210-229 | updateOtherCost replaces only the entry at the index |
| OrderCostRate.IncludeTaxToggles | src/components/OrderCostRatePage.js:213-221 | the tax switch of an entry is flipped whatever value is passed, and twice restores it |
| OrderCostRate.SwitchTaxOn | src/components/OrderCostRatePage.js:210-229 | switching an entry's tax on lowers the total cost by 5% of its amount |
| OrderCostRate.RemoveOtherCost | src/components/OrderCostRatePage.js:232-237 | removeOtherCost drops exactly the entry at the index |
| OrderCostRate.RemoveOtherCostTotals | src/components/OrderCostRatePage.js:232-237 | removing an entry lowers the total cost by its net amount |
| OrderCostRate.SaveSpec | src/components/OrderCostRatePage.js:289-298 | Save accepts exactly a name with some non-space character and an average order value, and then stores CalculateTotals of the form |
| ExcelAnalysis.CountOrders | src/pages/ExcelAnalysisPage.js:182-215 | the counting loop from row 1 gives Tally of the rows after the header |
| ExcelAnalysis.CountOrder | src/pages/ExcelAnalysisPage.js:183-214 | the loop body, counter by counter, is one step of the tally |
| ExcelAnalysis.CountRowOfOrder | src/pages/ExcelAnalysisPage.js:184-213 | an order raises the order count by one, each kind counter by its flag, and the amounts by its pre-discount and actual amounts |
| ExcelAnalysis.TallySpec | src/pages/ExcelAnalysisPage.js:182-215 | in Tally, the order count is the number of rows with a filled cell, the pre-discount total their sum, every kind count is at most the order count, and orders over 3300 are among those over 2800 |
| ExcelAnalysis.HeaderIgnored | src/pages/ExcelAnalysisPage.js:182 | whatever the header row holds, the counts are the same |
| ExcelAnalysis.ShareOfCost | src/pages/ExcelAnalysisPage.js:234-239 | a cost spread over k of n orders is, per order, between 0 and the cost |
| ExcelAnalysis.AveragesBounds | src/pages/ExcelAnalysisPage.js:234-239 | the KOL average is between 0 and 70, and the KB-gift and 3300-gift averages between 0 and their gift costs |
| ExcelAnalysis.AverageCostBounds | src/pages/ExcelAnalysisPage.js:182-239 | on any sheet that has orders, those bounds hold, since each kind of order is among the orders |
| ExcelAnalysis.RecordTaxes | src/pages/ExcelAnalysisPage.js:245-274 | the tax loop records each figure's tax under its keys and returns the sums of the included and of the deductible taxes |
| ExcelAnalysis.RecordOfSpec | src/pages/ExcelAnalysisPage.js:245-259 | each figure gets its tax, and the deductible or included key exactly when treated so, with the same tax |
| ExcelAnalysis.TaxRecordSpec | src/pages/ExcelAnalysisPage.js:245-259 | every taxable figure's tax is 5% of it with its switch on and 0 otherwise, and the deductible and included keys are exactly those treated so |
| ExcelAnalysis.CalculateStats | src/pages/ExcelAnalysisPage.js:172-279 | calculateStats computes StatsOf the sheet and the settings, the statistics WithTaxSpec and the bounds lemmas describe |
| ExcelAnalysis.Summarize | src/pages/ExcelAnalysisPage.js:245-277 | the part after the averages gives the tax record, the cost with tax and the order cost rate |
| ExcelAnalysis.SignedSum | src/pages/ExcelAnalysisPage.js:268-276 | adding the included taxes and taking off the deductible ones is one signed sum over the figures |
| ExcelAnalysis.WithTaxSpec | src/pages/ExcelAnalysisPage.js:217-277 | in StatsOf, averages exist exactly when there are orders; the cost with tax is the total cost plus included less deductible tax; the rate exists exactly for a nonzero average pre-discount amount and times it gives the cost with tax |
| ExcelAnalysis.NoTaxNoChange | src/pages/ExcelAnalysisPage.js:250-276 | with every switch off, or no treatment set, the cost with tax is the plain total cost |
| ShippingRows.FirstFilledSpec | src/pages/ShippingPage.js:253-257 | `row[a] \|\| row[b] \|\| d` is the first filled cell among the headers, the default when none is filled, and never empty with a non-empty default |
| ShippingRows.OrderQuantity | src/pages/ShippingPage.js:258 | `parseInt` of String() of the first truthy cell of '數量' and 'quantity', else 1; a '數量' cell holding the number 0 is passed over |
| ShippingRows.ZeroQuantityCell | src/pages/ShippingPage.js:258 | a '數量' cell holding the number 0 gives the 'quantity' cell's count, or 1 |
| ShippingRows.StarSkuSpec | src/pages/ShippingPage.js:261-268 | a SKU with one '*' and a numeric tail becomes its trimmed head with star quantity the tail; any other SKU is kept with star quantity 1 |
| ShippingRows.StarSkuExample | src/pages/ShippingPage.js:261-268 | "SS005*5" stands for 5 of SS005 |
| ShippingRows.MatchSku | src/pages/ShippingPage.js:284-319 | BOM tables are searched first and bundles only when no BOM has the code; the first hit wins; no match exactly when neither has it |
| ShippingRows.BuildRow | src/pages/ShippingPage.js:322-352 | a row's quantity is order quantity × star quantity, its totals are unit values times that, an unmatched row has zero cost and volume, and a bundle row carries its components |
| ShippingRows.ProcessOrderSpec | src/pages/ShippingPage.js:253-352 | a processed row is unmatched exactly when no BOM table and no bundle has its SKU, then with zero volumes and costs, and a BOM row exactly when some BOM table has it |
| ShippingRows.Bump | src/pages/ShippingPage.js:274-278 | the counter update adds the amount under the key |
| ShippingRows.TallySpec | src/pages/ShippingPage.js:274-278 | a counting dictionary lists each key once in first-occurrence order and counts for it exactly the sum added under it |
| ShippingRows.TallyCountOf | src/pages/ShippingPage.js:274-278 | the count of any key, 0 when never added, is the sum of the amounts added under it |
| ShippingRows.TallyTotal | src/pages/ShippingPage.js:274-278 | the counts over the keys add up to the sum of everything added |
| ShippingRows.SkuTallyStep | src/pages/ShippingPage.js:274-278 | one more row adds its quantity under its SKU |
| ShippingRows.ProcessOne | src/pages/ShippingPage.js:250-352 | the row callback builds the processed row and says which counter it raises, never both |
| ShippingRows.CountRow | src/pages/ShippingPage.js:274-319 | after one more row the match counters count BOM and bundle rows, every row counts once, and the SKU dictionary is the tally of the rows |
| ShippingRows.ProcessOrders | src/pages/ShippingPage.js:250-353 | the row loop fails exactly when some row's SKU cell is not text (`sku.includes` throws); otherwise it maps every order to its processed row, with the BOM and bundle match counts and the SKU dictionary of those rows, and every row is of exactly one kind |
| ShippingRows.UnmatchedSkusSpec | src/pages/ShippingPage.js:376-379 | the unmatched SKUs are those of the unmatched rows, without repeats, in first-occurrence order |
| ShippingRows.UnmatchedSkusCover | src/pages/ShippingPage.js:376-379 | every unmatched row's SKU is listed, and every listed SKU is that of an unmatched row |
| SkuStats.SkuStatsByKeys | src/pages/ShippingPage.js:355-371 | sorting the statistics is taking the statistics of the sorted SKUs |
| SkuStats.SortedSkusSpec | src/pages/ShippingPage.js:371 | the sorted SKUs are the dictionary's SKUs, each once, by descending count |
| SkuStats.SkuStatsOrder | src/pages/ShippingPage.js:355-371 | the statistics come out by descending count, each SKU once |
| SkuStats.SkuStatsEntries | src/pages/ShippingPage.js:355-370 | each statistic is a tallied SKU with its total quantity, unmatched exactly when no BOM table and no bundle has it |
| SkuStats.SkuStatOfSpec | src/pages/ShippingPage.js:356-370 | one SKU's statistic carries its tallied quantity and is unmatched exactly when no table carries its code |
| SkuStats.SkuStatsCover | src/pages/ShippingPage.js:355-371 | every SKU some row has gets a statistic |
| SkuStats.SkuStatsTotal | src/pages/ShippingPage.js:355-371 | the counts of the statistics add up to the total quantity ordered |
| SkuStats.LastCostsSpec | src/pages/ShippingPage.js:481-512 | the SKU cost dictionary holds a SKU exactly when a row has it, with the unit cost of the last such row |
| SkuStats.CostsOfSpec | src/pages/ShippingPage.js:500-510 | the component cost dictionary holds only codes some BOM table carries, each with such a table's cost |
| SkuStats.AddComponents | src/pages/ShippingPage.js:500-510 | the inner component loop tallies each component's amount and records its BOM cost |
| SkuStats.CountSkus | src/pages/ShippingPage.js:481-512 | the row loop fills the four dictionaries as their definitions say |
| SkuStats.CountSkuRow | src/pages/ShippingPage.js:481-512 | one turn of the row loop takes the dictionaries of the first i rows to those of the first i + 1 |
| SkuStats.StatForCounts | src/pages/ShippingPage.js:515-544 | a SKU's direct count is its tallied order quantity, its component count the quantity inside bundles, and its total their sum |
| SkuStats.ListedKeysSpec | src/pages/ShippingPage.js:515-567 | a SKU is listed exactly when it was ordered directly, or it is a component code some BOM table carries |
| SkuStats.ListedKeysDistinct | src/pages/ShippingPage.js:515-567 | with the intended guard the listed SKUs have no repeats |
| SkuStats.SortedTotalKeysSpec | src/pages/ShippingPage.js:570 | the sorted SKUs are the listed ones, each once, by descending total |
| SkuStats.SortedTotalKeysMembers | src/pages/ShippingPage.js:570 | every sorted SKU is listed and every listed SKU is among the sorted ones |
| SkuStats.ExtraStep | src/pages/ShippingPage.js:547-567 | under either guard, one more component code adds a statistic exactly when the guard does not list it and some BOM table carries it |
| SkuStats.AppendExtras | src/pages/ShippingPage.js:547-567 | under either guard, the push loop appends the statistics of the component codes the guard lets through, in key order |
| SkuStats.PushExtra | src/pages/ShippingPage.js:547-567 | one turn of the push loop keeps the pushed statistics equal to those of the keys seen so far |
| SkuStats.ExtraStatMatched | src/pages/ShippingPage.js:549-565 | a component-only statistic has direct count 0, is a BOM match, and is named after a BOM table that carries its SKU |
| SkuStats.TotalStatsSpec | src/pages/ShippingPage.js:515-570 | with the intended guard each listed SKU gets exactly one statistic, by descending total count |
| SkuStats.CalculateTotalSkuCounts | src/pages/ShippingPage.js:474-571 | calculateTotalSkuCounts with the corrected guard computes the totals that TotalSkuCountsSpec describes |
| SkuStats.CalculateTotalSkuCountsAsWritten | src/pages/ShippingPage.js:474-571 | calculateTotalSkuCounts with the guard `!skuCounter[sku]` computes the totals as written, which AsWrittenAgrees and ListedTwiceAsWritten relate to the corrected ones |
| SkuStats.AsWrittenAgrees | src/pages/ShippingPage.js:547-549 | when no SKU ordered directly has a total of 0, the totals as written are the corrected ones |
| SkuStats.ListedTwiceAsWritten | src/pages/ShippingPage.js:474-571 | on any rows in which a SKU's direct quantities sum to 0, and which have it as a bundle component that some BOM table carries, the totals as written list that SKU at two positions |
| SkuStats.ListedTwiceIn | src/pages/ShippingPage.js:547-570 | the same on the dictionaries: the direct statistic and the pushed one both survive the sort |
| SkuStats.TalliedKey | src/pages/ShippingPage.js:484-491 | a key some pair adds to a dictionary is in it, with the sum of that key's amounts |
| Seqs.RepeatedKey | src/pages/ShippingPage.js:570 | a sort, being a permutation, keeps two positions that share a key |
| SkuStats.TotalSkuCountsSpec | src/pages/ShippingPage.js:474-571 | the totals give each listed SKU of the rows exactly one statistic, by descending total count |
| SkuStats.DuplicateSkuAsWritten | src/pages/ShippingPage.js:548 | with the guard as written, a SKU ordered directly with quantity 0 that is also a BOM-carried component gets two statistics |
| SkuStats.DuplicateSkuCorrected | src/pages/ShippingPage.js:548 | with the intended guard the same SKU gets one statistic |
| SkuStats.ZeroQuantityRow | src/pages/ShippingPage.js:271-278 | a single row with quantity 0 tallies to a direct count of 0 for its SKU |
| ShippingGroups.BoxFor | src/pages/ShippingPage.js:402 | the carton is S60 exactly for a volume of at most 14, and S90 exactly above |
| ShippingGroups.GroupOf | src/pages/ShippingPage.js:382-405 | the reference shipment of an order number carries that number |
| ShippingGroups.GroupAccSpec | src/pages/ShippingPage.js:382-405 | the reduce maps each order number that occurs, and only those, to its shipment, with keys in first-occurrence order |
| ShippingGroups.GroupOfSnoc | src/pages/ShippingPage.js:384-403 | a new row starts its order number's shipment or is added to it |
| ShippingGroups.GroupByOrderNumber | src/pages/ShippingPage.js:382-405 | the grouping loop builds the dictionary of the reduce |
| ShippingGroups.ValuesOf | src/pages/ShippingPage.js:408 | `Object.values` lists the group of each key, in key order |
| ShippingGroups.LexLeTotalPreorder | src/pages/ShippingPage.js:408-410 | the order-number comparator is a total preorder |
| ShippingGroups.ValuesAreGroups | src/pages/ShippingPage.js:382-408 | the dictionary's values are the shipments of the distinct order numbers |
| ShippingGroups.GroupedByKeys | src/pages/ShippingPage.js:408-410 | sorting the shipments is taking the shipments of the sorted order numbers |
| ShippingGroups.SortedKeys | src/pages/ShippingPage.js:408-410 | the sorted order numbers are a strictly increasing permutation |
| ShippingGroups.GroupedOrdersSorted | src/pages/ShippingPage.js:382-410 | the shipments come out strictly sorted by order number, one for each order number that occurs and nothing else |
| ShippingGroups.GroupedMembers | src/pages/ShippingPage.js:382-410 | every shipment is the shipment of an order number that occurs |
| ShippingGroups.GroupedCover | src/pages/ShippingPage.js:382-410 | every order number's shipment is listed |
| ShippingGroups.RowInItsGroup | src/pages/ShippingPage.js:382-405 | every row is in the shipment of its own order number and in no other |
| ShippingGroups.GroupCostAmount | src/pages/ShippingPage.js:400 | a shipment's cost is the sum of its rows' costs |
| ShippingGroups.GroupVolumeAmount | src/pages/ShippingPage.js:399 | a shipment's volume is the sum of its rows' volumes |
| ShippingGroups.GroupSizeAmount | src/pages/ShippingPage.js:398 | a shipment holds as many items as it has rows |
| ShippingGroups.GroupTotals | src/pages/ShippingPage.js:382-425 | the shipments hold all rows between them: item counts add up to the number of rows, and volumes and costs to the rows' |
| ShippingGroups.GroupSizeTotal | src/pages/ShippingPage.js:382-410 | the item counts of the shipments add up to the number of rows |
| ShippingGroups.GroupVolumeTotal | src/pages/ShippingPage.js:382-410 | the shipment volumes add up to the rows' volume |
| ShippingGroups.GroupCostTotal | src/pages/ShippingPage.js:413-425 | the shipment costs add up to the rows' cost |
| ShippingGroups.SummarySpec | src/pages/ShippingPage.js:413-425 | each shipment's carton matches its volume, S60 and S90 shipments number the shipments, and the total order cost is the rows' cost |
| ShippingGroups.GroupBox | src/pages/ShippingPage.js:402 | each shipment has the carton its final volume calls for |
| ShippingPage.Toggled | src/pages/ShippingPage.js:451-455 | `{...prev, [k]: !prev[k]}` flips that flag and keeps every other |
| ShippingPage.ToggleCount | src/pages/ShippingPage.js:451-466 | toggling changes the picked count by one, down when it was picked and up otherwise |
| ShippingPage.ToggleTwice | src/pages/ShippingPage.js:451-455 | toggling twice gives back every flag |
| ShippingPage.VerificationSummarySpec | src/pages/ShippingPage.js:465-471 | when only shown shipments are picked, the picked count is the number of picked shipments and neither count exceeds the total |
| ShippingPage.VerifiedCountBound | src/pages/ShippingPage.js:465-471 | the picked count never exceeds the number of shipments |
| ShippingPage.CeilDiv | src/pages/ShippingPage.js:585-587 | `Math.ceil(n / per)` pages are enough and one fewer would not be |
| ShippingPage.CeilDivLeast | src/pages/ShippingPage.js:585-587 | no smaller page count holds all shipments |
| ShippingPage.SliceIndex | src/pages/ShippingPage.js:593 | a `slice` bound is clamped to the sequence and kept when in range |
| ShippingPage.PageSpec | src/pages/ShippingPage.js:590-594 | page p holds the items from (p - 1) × per up to p × per that exist, at most per of them |
| ShippingPage.PageEmpty | src/pages/ShippingPage.js:585-594 | a page is empty exactly when it is past the last page |
| ShippingPage.PageFilled | src/pages/ShippingPage.js:585-594 | every page up to the last shows something |
| ShippingPage.PageStartsInside | src/pages/ShippingPage.js:585-594 | a page up to the last starts before the end |
| ShippingPage.PageBeyond | src/pages/ShippingPage.js:585-594 | a page past the last is empty |
| ShippingPage.PagesPrefix | src/pages/ShippingPage.js:590-594 | the first k pages are the first k × per shipments |
| ShippingPage.PagesCover | src/pages/ShippingPage.js:585-594 | pages 1 to totalPages show every shipment once, in order |
| ShippingPage.Calculate | src/pages/ShippingPage.js:246-425 | the calculation fails when a row's SKU cell is not text; otherwise it processes the rows, builds the SKU statistics, sorts the shipments and summarises, with distinct order numbers |
| ShippingPage.NonTextSkuAborts | src/pages/ShippingPage.js:253-262 | a row whose SKU cell is a nonzero number or true makes the whole calculation fail |
| ShippingPage.GroupedDistinct | src/pages/ShippingPage.js:382-410 | the shipments of a calculation have pairwise different order numbers |
| ShippingPage.ShippingPageState.constructor | src/pages/ShippingPage.js:14-34 | the page starts with no orders, rows, statistics or shipments, no picks, page 1 and 5 per page |
| ShippingPage.ShippingPageState.SetOrders | src/pages/ShippingPage.js:226 | an upload replaces the orders and nothing else |
| ShippingPage.ShippingPageState.CalculateBoxTypes | src/pages/ShippingPage.js:237-430 | with no orders nothing changes; when a row's SKU cell is not text the picks are cleared and nothing else changes; otherwise the results are those of the calculation, the picks are cleared and page 1 is shown |
| ShippingPage.ShippingPageState.Store | src/pages/ShippingPage.js:417-430 | the state updates store the calculation, clear the picks and return to page 1 |
| ShippingPage.ShippingPageState.OpenSkuStatsModal | src/pages/ShippingPage.js:36-40 | the statistics shown become the corrected totals (TotalSkuCounts) of the stored rows, and nothing else in the state changes |
| ShippingPage.ShippingPageState.ShowStats | src/pages/ShippingPage.js:39 | setSkuStats stores the statistics and changes nothing else |
| ShippingPage.ShippingPageState.ToggleVerification | src/pages/ShippingPage.js:451-462 | one pick flag flips and nothing else changes |
| ShippingPage.ShippingPageState.HandlePageChange | src/pages/ShippingPage.js:574-576 | the current page becomes the chosen one and nothing else changes |
| ShippingPage.ShippingPageState.HandleItemsPerPageChange | src/pages/ShippingPage.js:579-582 | the page size becomes one of the offered sizes and page 1 is shown |
| UserRoles.CommaListSpec | src/config/userRoles.js:8 | a string is in the list exactly when it is a non-empty trimmed piece of the setting, and every entry is clean |
| UserRoles.ListsAreClean | src/config/userRoles.js:1-35 | both lists hold only clean entries, so an email or path with surrounding white space is never matched |
| UserRoles.Defaults | src/config/userRoles.js:3-18 | an unset or empty setting gives no restricted users and exactly '/signin' and '/profile'; only a string can be a member |
| UserRoles.CommaListJoin | src/config/userRoles.js:8 | writing clean entries with commas between them gives them back |

## Left out

- Firebase reads and writes are left out: documents, queries, storage uploads, timestamps and write failures. The documents read are parameters; what is written is a returned value.
- React state, effects, toasts, navigation and `localStorage` are left out. Only the page state the computations read and write is modelled, as a class where it is updated.
- The xlsx and FileReader parsing of uploaded sheets is left out: the rows are a parameter. The Excel date test `isThursday` is also a parameter.
- Floating point is not modelled: amounts are exact reals, so rounding and the `toFixed(2)` text are not captured. `toFixed` keeps the number it formats.
- Js.Lower: `toLowerCase` is modelled on ASCII letters only; other scripts keep their characters.
- Js.LexLe: `localeCompare` is modelled as code-point order. The 'zh-TW' collation of the category sorts is not modelled.
- `parseInt` is modelled as a total function to integers. A quantity cell that `parseInt` reads as NaN is not modelled, so neither is the NaN that would then spread through a row's totals.
- Dictionary keys named after `Object.prototype` members, such as "constructor" or "__proto__", are not modelled. The model treats them like any other SKU or order number.
- `Object.entries` is modelled as insertion order of string keys. Integer-like keys, which JavaScript lists first, are not distinguished.
- Seqs.SortBy: `Array.prototype.sort` is modelled as a stable insertion sort. Engines with an unstable sort may order equal keys differently.
- Shallow copies are not modelled. The editors write into the same item objects the old state holds; the model produces a new sequence.
- NewBomTable.UpdateItem, EditBomTable.HandleItemChange, CustomCombination.HandleProductChange and OrderCostRate.UpdateOtherCost require an index in range. The pages pass only indexes of rows they show; an out-of-range index would throw or create a hole in JavaScript.
- ShippingPage.ShippingPageState.HandleItemsPerPageChange requires one of the sizes the dropdown offers (5, 10, 20, 50).
- ShippingRows.OrderRow: a cell is text, a number or a boolean, as sheet_to_json gives it. An order number, customer name, address, phone or product name that is a number is carried as its String() text, where the source keeps the number.
- ShippingRows.OrderRow: a numeric order number makes the sort's `localeCompare` throw (src/pages/ShippingPage.js:409) whenever that shipment is the comparator's first argument. That throw is not modelled. It would come after the rows and SKU statistics are stored.
- ShippingRows.OrderQuantity: a quantity cell that `parseInt` reads as NaN is outside the model, as for every parseInt.
- Catalog.FetchBundles: a stored bundle product is assumed to have a numeric quantity (0 when absent). A non-numeric quantity read through `||` is not modelled.
- CustomCombination: bundle lines whose item names are references are not resolved. The name plays no part in any cost.
- CustomCombination: the list of all bundles that fetchCombinations builds is not modelled, only one bundle's total. One bundle that fails to load makes the whole list fail (src/components/CustomCombinationAnalysis.js:42-79), so the page then shows no bundle.
- CategoryManagement: a category document without a name field is not modelled, and neither is a failed fetch.
- ExcelAnalysis: a truthy non-string in column 20 would make `includes` throw; it is read as no mention.
- ExcelAnalysis: with zero orders the page divides 0 by 0, and the averages and rates are then None.
- ExcelAnalysis: with orders whose average pre-discount amount is 0, the page divides the cost with tax by 0 (src/pages/ExcelAnalysisPage.js:277). That gives Infinity or NaN; the model's order cost rate is then None.
- ProfitAnalysis: the batch write of handleSave is left out; it only persists the edited website prices.
- OrderCostRate: handleEdit and resetForm only copy a saved record into the form, and are left out.
- EditSharedMaterials: the derived unit cost is kept as a number. On save, `parseFloat` of its `toFixed(2)` text is modelled as that number.
- Js.ParseFloat: the text "Infinity" or "-Infinity" that `toFixed(2)` gives for an infinity reads back as that infinity in JavaScript. The model reads every FixedNonFinite as NaN (None). This matters for EditSharedMaterials: with a product unit of 0 and a nonzero price, the saved unit cost is an infinity in the source (src/pages/EditSharedMaterials.js:109) and NaN (None) in the model.
- EditBomTable: loading the shared materials is left out, because it only builds the dropdown options the editor passes in. The same goes for loading the table itself.
- PricingAnalysis: fetchBomTables is left out. Its cost roll-up and category lookup are the ones modelled in ProfitAnalysis.RowOf and Catalog.CategoryOf.
- ShippingPage: the accordion, tab and modal open flags and the processing flag are left out, because they affect display only. The statistics update of openSkuStatsModal is modelled (ShippingPage.ShippingPageState.OpenSkuStatsModal).
- ShippingPage.ShippingPageState.OpenSkuStatsModal: shows the corrected totals of the Findings table, not the totals as written. The two differ only when a SKU ordered directly has a total of 0 (SkuStats.AsWrittenAgrees); then the page as written lists that SKU twice (SkuStats.ListedTwiceAsWritten). The as-written computation is SkuStats.CalculateTotalSkuCountsAsWritten.
- ShippingPage.ShippingPageState.constructor: the initial summary in the source has no totalOrdersCost field, so it reads as undefined until the first calculation. The model's summary always has the field and starts it at 0.
- ShippingRows: an unmatched order row keeps the matchSource 'bom' it starts with (src/pages/ShippingPage.js:288), and the model does the same. Only the SKU statistics compute 'none'. No count depends on a row's source, because the match counters test the status first.
- EditBomTable: this page's total ignores the per-line tax flag, and so does the model (EditBomTable.TotalIgnoresTax).

## Findings

| source | as written | input that shows it | evidently intended | confidence | as-written member | corrected member |
|---|---|---|---|---|---|---|
| src/pages/ShippingPage.js:548 | a component SKU is pushed as a statistic of its own when `!skuCounter[sku]`, that is, when the direct count is missing OR 0 | SKU "C" ordered directly in one row whose quantity cell is the text "0" (or whose SKU token is "C*0"), and also a component of an ordered bundle; some BOM table has product code "C" | push only SKUs that have no direct statistic (`!(sku in skuCounter)`), so each SKU is listed once | not executed | SkuStats.ListedTwiceAsWritten | SkuStats.TotalSkuCountsSpec |
