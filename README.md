# Construction budget as a composite tree

This project models a small construction-budget program. A budget is a tree of
named parts:

- a **simple part** (`ParteSimple`) has a price that is fixed when it is built;
- a **composite part** (`ParteCompuesta`) owns an ordered list of sub-parts. Its
  price is the sum of their prices, and `addParte` appends one more.

Every part has a name that `setNombre` can change. `imprimirPresupuesto` prints
the breakdown. It writes one line per node in pre-order, and each level adds one
tab of indentation. The program's `main` builds a sample house, prints its total
price and prints its breakdown.

The model is written in three files:

- `budget.dfy`, module `Budget`: the tree as a value, `datatype Part = Simple |
  Composite`. This layer holds the specification functions. `Price` and
  `SumPrices` compute prices. `Rename` and `AddChild` build updated nodes.
  `Lines` is the printed breakdown as a sequence of `Line(indent, name, price)`
  records. `Entries` is the pre-order list of nodes with their depths. The
  lemmas about these functions are here too.
- `parts.dfy`, module `Parts`: the objects the program works with.
  - Classes `SimplePart` and `CompositePart` have a mutable `name`. A composite's
    child list is a `seq` field that `AddPart` reassigns.
  - `SumChildPrices` is the accumulating `for` loop of `getPrecio`. It is
    mutually recursive with `PartPrice`.
  - `PrintBreakdown` writes the breakdown line by line to a `Console` object,
    which stands in for standard output.
  - Each method is proved against the functions of `Budget`.
- `app.dfy`, module `App`: the sample house, built object by object as `main`
  does it. It proves the section totals, the house total of 75000 and the 20
  printed lines.

The sample house has 20 nodes: 12 leaves and 8 composites. `App.HousePrices`
states that the tree has 20 nodes, and `App.RunApp` states that the printed
breakdown has 20 lines. `Pair` and `Triple` in `app.dfy` are helpers for the
demo only: they unfold the price and size of a two- and a three-child list.

`getNombre` is modelled as reading the `name` field or the `name` destructor;
it has no member of its own. Prices are `real`. `Render` gives the text of a
printed line, and the number formatter is a parameter.

## Model

| member | source | states |
|---|---|---|
| `Budget.SumPricesAppend` | src/App.java:87-93 | Summing the prices over a concatenation of child lists gives the sum of the two separate sums. |
| `Budget.SumPricesFront` | src/App.java:87-93 | A non-empty child list sums to the first child's price plus the sum of the rest. Summing from the front agrees with the loop's order. |
| `Budget.PriceOfBaseCases` | src/App.java:134-136 | A leaf's price is the price it was built with. A composite with no children has price 0. |
| `Budget.Price` | src/App.java:87-93 | The specification of `getPrecio` for both variants: a composite's `SumPrices` of its children, as in the loop shown here, and a leaf's stored price, as in lines 134-136. Its properties are stated by `PriceOfBaseCases`, `PriceIsSumOfLeaves`, `RenameKeepsPrice` and `AddChildPrice`. |
| `Budget.SumPrices` | src/App.java:87-93 | The specification of the loop: the children's prices added from the first to the last, starting from 0. Its properties are stated by `SumPricesAppend`, `SumPricesFront` and `PriceIsSumOfLeaves`. |
| `Budget.PriceIsSumOfLeaves` | src/App.java:87-93 | At any nesting depth, a part's price equals the plain sum of the prices of the leaves under it. |
| `Budget.Rename` | src/App.java:35-37 | The renamed part has the new name and the same variant. A leaf keeps its price and a composite keeps its children. |
| `Budget.RenameKeepsPrice` | src/App.java:35-37 | Renaming changes neither the price nor the leaf prices beneath the part. |
| `Budget.AddChild` | src/App.java:76-78 | The child list grows by one. The old children keep their positions and the new part is last. The name does not change. |
| `Budget.AddChildPrice` | src/App.java:76-78 | Right after a child is added, the composite's price is its former price plus the child's price. |
| `Budget.AddChildLeaves` | src/App.java:76-78 | After a child is added, the leaves are the former leaves followed by the child's leaves. |
| `Budget.LeafLines` | src/App.java:144-146 | A leaf prints exactly one line, holding its indentation, name and price. |
| `Budget.Lines` | src/App.java:102-107 | The breakdown printed from indentation `tab` has one line per node of the tree. Its first line is the part's own line, with the indentation, the name and the computed price. |
| `Budget.ChildLines` | src/App.java:104-106 | Printing a list of children one tab further in produces one line per node under those children. |
| `Budget.ChildLinesAppend` | src/App.java:104-106 | Printing the children of two concatenated lists gives the two printouts one after the other. |
| `Budget.ChildBlock` | src/App.java:102-107 | Pre-order with insertion order: the j-th child's lines are one contiguous block, one tab further in. The block starts right after the parent's line and the blocks of the children before it. |
| `Budget.Tabs` | src/App.java:105 | The indentation for depth k is exactly k tab characters. |
| `Budget.LinesFollowEntries` | src/App.java:102-107 | The breakdown lists the nodes in pre-order. Each line is the starting indentation plus one tab per level of depth, then the node's name and price. |
| `Budget.DepthIsIndent` | src/App.java:103-105 | Starting from an empty indentation, the i-th printed line is that of the i-th pre-order node at depth k. It carries exactly k tabs, the node's name and its price. |
| `Budget.Render` | src/App.java:103 | The text of a line is the indentation, then the name, then one space, then the price as the formatter writes it. |
| `Budget.PrintedText` | src/App.java:102-107 | Starting from the empty indentation, the text printed for the i-th node in pre-order is as many tabs as its depth, its name, a space and its price. This covers the composite's line (line 103) and the leaf's line (line 145). |
| `Parts.Console.WriteLine` | src/App.java:103 | Writing a line appends exactly that line to the output. |
| `Parts.PartPrice` | src/App.java:87-93 | The computed price of any part equals `Price`. For a composite that is the loop over the children shown here; for a leaf it is the stored price of lines 134-136. |
| `Parts.SumChildPrices` | src/App.java:87-93 | The loop that accumulates the children's prices from first to last returns their sum, and 0 for no children. |
| `Parts.PrintBreakdown` | src/App.java:102-107 | Printing appends exactly `Lines(p, tab)` to the output. That is the part's own line, then each child's breakdown one tab further in, in list order. |
| `Parts.SimplePart.constructor` | src/App.java:123-126 | A new leaf has the given name and price. |
| `Parts.SimplePart.SetName` | src/App.java:35-37 | Only the name changes. The price stays the one the leaf was built with. |
| `Parts.SimplePart.GetPrice` | src/App.java:134-136 | Returns exactly the stored price, which is `Price` of the leaf. |
| `Parts.SimplePart.PrintBudget` | src/App.java:144-146 | Appends one line, with the indentation, the name and the price. |
| `Parts.CompositePart.constructor` | src/App.java:67-69 | A new composite has the given name and no children. |
| `Parts.CompositePart.AddPart` | src/App.java:76-78 | The part is appended at the end and the earlier children and the name are unchanged. The price grows by exactly the added part's price. |
| `Parts.CompositePart.SetName` | src/App.java:35-37 | Only the name changes. The children, and so the price, are untouched. |
| `Parts.CompositePart.GetPrice` | src/App.java:87-93 | Returns the sum of the children's prices in list order. |
| `Parts.CompositePart.PrintBudget` | src/App.java:102-107 | Appends the composite's full pre-order breakdown. |
| `App.BuildCasa` | src/App.java:202-205 | The house is the composite "Casa" holding finca, estructura and interior, in that order. |
| `App.BuildFinca` | src/App.java:157-161 | The land section is the composite "finca" with "Cierre finca" 4000 and "jardín" 1000, in that order. |
| `App.BuildEstructura` | src/App.java:164-170 | The structure section is "estructura" with "tejado", "alturas" and "sótano", each 10000. |
| `App.BuildHabitaciones` | src/App.java:173-177 | The rooms group holds "mobiliario" 20000 and "pintura" 10000. |
| `App.BuildElectricidad` | src/App.java:179-183 | The electrical group holds "cables" 500 and "operadores" 500. |
| `App.BuildFontaneria` | src/App.java:185-194 | The plumbing group holds "tuberías" 3000, then the heating group with "caldera" 4000 and "radiadores" 2000. |
| `App.BuildInterior` | src/App.java:196-199 | The interior holds rooms, electrical work and plumbing, in that order. |
| `App.FincaTotals` | src/App.java:157-161 | The land section is worth 5000 and has 3 nodes. |
| `App.EstructuraTotals` | src/App.java:164-170 | The structure section is worth 30000 and has 4 nodes. |
| `App.InteriorTotals` | src/App.java:173-199 | The interior section is worth 40000 and has 12 nodes. |
| `App.HousePrices` | src/App.java:157-208 | finca is 5000, estructura is 30000, interior is 40000 and the house is 75000. The house tree has 20 nodes. |
| `App.HouseBreakdown` | src/App.java:211 | The breakdown of the house has 20 lines. The first is "Casa" at 75000 with no indentation. |
| `App.RunApp` | src/App.java:155-212 | The reported total is 75000. The breakdown printed from the empty indentation is the 20 lines of `Lines(House(), "")`, and the first is "Casa" at 75000. |

## Left out

- Standard output: `System.out.println` is replaced by the `Console` object,
  which records `Line` records. The summary line "Total house price: ..." is
  modelled as the `total` that `RunApp` returns, not as text.
- Floating point: prices are exact `real` numbers. Java `double` rounding in the
  repeated `+=` of `getPrecio` is not modelled.
- Price formatting: `Double.toString` is not modelled. `Render` takes the number
  formatter as a parameter.
- Aliasing: a composite holds its children as values. If the program changed a
  child object after adding it, the Java parent would see the change and the
  model would not. The sample program never does this. Shared sub-trees and
  cycles cannot be expressed, because the datatype is a strict tree.
- Abstract-class dispatch: the abstract base class and its two subclasses are
  replaced by the two variants of `Part` and pattern matching. `getNombre` is a
  plain field read.
- Null references: the Java code accepts a null name in both constructors and
  in `setNombre`, and a null `tab`. Lines 103 and 145 then print the text
  "null". It also accepts `addParte(null)`, because `ArrayList` allows null.
  After that, `getPrecio` fails with a NullPointerException at line 90, and
  `imprimirPresupuesto` fails at line 103 before it prints anything. In the
  model a `string` or a `Part` cannot be null. So `SimplePart.constructor`,
  `CompositePart.constructor`, `SimplePart.SetName`, `CompositePart.SetName`
  and `CompositePart.AddPart` have none of these paths.
