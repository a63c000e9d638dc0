# Inventory ledger

A model of the inventory ledger (`SistemaInventario`) of a small warehouse
program. The program exists in three near-identical versions, and each has its
own ledger class:

- `TypedLedger` (`2_GRUPO_04_TF_FP2_25-2.py`): domestic (`ProductoNacional`) and
  imported (`ProductoImportado`) products, typed errors (`CodigoDuplicado`,
  `ProductoNoEncontrado`, `StockInsuficiente`, `ValueError`) as a `Result`, and a
  movement list inside each product besides the global log.
- `SilentLedger` (`GRUPO_04_TF_FP2_25-2.py`): plain, perishable and imported
  products, a stock-minimum observer attached to every product, per-product
  movement lists, and failures reported as `None`.
- `PlainLedger` (`prog_inv_v0.py`): plain products only, no per-product movement
  list, and a valuation at raw unit cost.

The three ledgers share these modules:

- `Products`: the `Producto` class with its kinds, supplier, low-stock predicate,
  alert shortfall, observer list, tax-inclusive cost and expiry check.
- `Movements`: the `Movimiento` record, the quantity sum, the projection of the
  log onto a product code, and the staged history filter.
- `Queries`: the case-insensitive search, the stock report with its low list,
  the stable sort by name, and the valuation.
- `Bookkeeping`: the invariants that tie the catalog, its insertion order and
  the global log together.

Each ledger keeps three things:

- `products`: the catalog, a map from code to a `Product` object;
- `order`: the dictionary's insertion order;
- `log`: the append-only global log.

Its `Valid()` invariant says four things:

- codes are unique and each product is stored under its own code;
- every logged movement names a catalog product;
- each product's stock is the sum of the logged quantities for its code;
- where the version keeps a per-product list, that list is exactly the global
  log filtered to the code, in order.

Every state-changing operation preserves this invariant. Each operation's
ensures clauses state what it does on success and show that a refused
operation leaves the state unchanged.

None of the versions checks the sign of `cantidad`. A negative inbound lowers the
stock, and a negative outbound passes the `stock_actual < cantidad` guard and
raises the stock (`TypedLedger.NegativeOutbound` shows it). The model follows the
code here. As a result, "stock never goes negative" holds only
conditionally: an inbound keeps it when `cantidad >= 0`, and an outbound always
keeps it.

In `2_GRUPO_04_TF_FP2_25-2.py`, `actualizar_stock` notifies no observers. Its
products never have any: the typed `Valid()` keeps `observers == []` for every
product. So the shared `Product.UpdateStock`, which notifies each observer,
behaves the same way there.

## Model

| member | source | states |
|---|---|---|
| Text.LowerChar | 2_GRUPO_04_TF_FP2_25-2.py:248-250 | capital ASCII letters become small letters, every other character is kept |
| Text.Lower | 2_GRUPO_04_TF_FP2_25-2.py:248-250 | `lower()` keeps the length and folds each character independently |
| Text.LowerIdempotent | 2_GRUPO_04_TF_FP2_25-2.py:248-250 | folding an already folded value changes nothing |
| Text.ContainsAt | 2_GRUPO_04_TF_FP2_25-2.py:248-250 | Python's substring `in` holds exactly when the needle occurs at some offset of the field |
| Text.Contains | 2_GRUPO_04_TF_FP2_25-2.py:248-250 | Python's substring `in`, defined by prefixes; its meaning (an occurrence at some offset) is stated by `Text.ContainsAt` |
| Text.EmptyContained | 2_GRUPO_04_TF_FP2_25-2.py:248-250 | the empty string is contained in every field |
| Text.LexLe | 2_GRUPO_04_TF_FP2_25-2.py:315 | Python's `<=` on the `nombre` key: code-point lexicographic order with a prefix first; the total-order lemmas below state its properties |
| Text.LexLeReflexive | 2_GRUPO_04_TF_FP2_25-2.py:315 | the string order used by `sorted` is reflexive |
| Text.LexLeTotal | 2_GRUPO_04_TF_FP2_25-2.py:315 | any two names are comparable |
| Text.LexLeAntisymmetric | 2_GRUPO_04_TF_FP2_25-2.py:315 | names ordered both ways are equal |
| Text.LexLeTransitive | 2_GRUPO_04_TF_FP2_25-2.py:315 | the name order is transitive |
| Movements.InboundTipo | 2_GRUPO_04_TF_FP2_25-2.py:259 | an inbound's kind is `"ingreso_"` followed by exactly the reason |
| Movements.OutboundTipo | 2_GRUPO_04_TF_FP2_25-2.py:276 | an outbound's kind is `"salida_"` followed by exactly the reason |
| Movements.InboundOutboundDistinct | 2_GRUPO_04_TF_FP2_25-2.py:259-276 | no inbound kind equals an outbound kind, whatever the reasons |
| Movements.SumQtyConcat | 2_GRUPO_04_TF_FP2_25-2.py:259-262 | the quantity sum of two logs in sequence is the sum of their sums |
| Movements.SumQtyNonNegative | 2_GRUPO_04_TF_FP2_25-2.py:254-263 | a log of non-negative quantities sums to at least zero |
| Movements.ForCodeAppend | 2_GRUPO_04_TF_FP2_25-2.py:259-262 | appending a movement extends the projection of its own code by it and leaves every other code's projection unchanged |
| Movements.ForCodeAbsent | 2_GRUPO_04_TF_FP2_25-2.py:66-67 | a code no logged movement names has an empty projection |
| Movements.ByCodeIsFilter | 2_GRUPO_04_TF_FP2_25-2.py:357-358 | the code stage keeps exactly the movements of that code when the code is truthy, and everything otherwise |
| Movements.SinceIsFilter | 2_GRUPO_04_TF_FP2_25-2.py:360-361 | the lower-date stage keeps `fecha >= fecha_inicio` when given, and everything otherwise |
| Movements.UntilIsFilter | 2_GRUPO_04_TF_FP2_25-2.py:363-364 | the upper-date stage keeps `fecha <= fecha_fin` when given, and everything otherwise |
| Movements.History | 2_GRUPO_04_TF_FP2_25-2.py:354-366 | the code stage, then the lower-date stage, then the upper-date stage; what it returns is stated by `Movements.HistoryIsOneFilter` and `Movements.HistoryMembership` |
| Movements.HistoryIsOneFilter | 2_GRUPO_04_TF_FP2_25-2.py:354-366 | the three stages in a row are one order-preserving filter by their conjunction |
| Movements.HistoryMembership | 2_GRUPO_04_TF_FP2_25-2.py:354-366 | a movement is in the history exactly when it is logged and passes every active filter; every returned movement passes them |
| Movements.HistoryMembershipAll | 2_GRUPO_04_TF_FP2_25-2.py:354-366 | for every movement at once: it is in the history exactly when it is logged and passes every active filter, and the history is no longer than the log |
| Movements.HistoryUnfiltered | 2_GRUPO_04_TF_FP2_25-2.py:354-366 | with no filter, or only an empty code, the whole log comes back in order |
| Movements.HistoryOfCode | GRUPO_04_TF_FP2_25-2.py:302-306 | the history of a non-empty code is the log's projection onto that code |
| Products.ToSupplier | 2_GRUPO_04_TF_FP2_25-2.py:26-63 | a given supplier is kept; a bare name becomes a supplier with RUC "00000000000" and phone "999999999" |
| Products.Expired | GRUPO_04_TF_FP2_25-2.py:96-102 | `esta_vencido` on an expiry and today's day: the date part is strictly before today; stated by `Products.ExpiredIgnoresTime` and `Products.ExpiredMonotone` |
| Products.ExpiredIgnoresTime | GRUPO_04_TF_FP2_25-2.py:96-102 | a datetime expiry expires exactly when its date would |
| Products.ExpiredMonotone | GRUPO_04_TF_FP2_25-2.py:96-102 | a product is not expired on its expiry day (strict `<`), and once expired it stays expired |
| Products.CostWithTax | 2_GRUPO_04_TF_FP2_25-2.py:150-151 | the tax-inclusive cost is at least the raw cost for non-negative cost and tax, and equals it for a zero tax |
| Products.UnitValue | 2_GRUPO_04_TF_FP2_25-2.py:340-345 | imported products are valued at `costo_con_impuesto`, every other kind at the raw unit cost |
| Products.NewWatched | GRUPO_04_TF_FP2_25-2.py:190-192 | a fresh product with the given fields, zero stock, no movements and the alert as its only observer |
| Products.Product.constructor | 2_GRUPO_04_TF_FP2_25-2.py:53-67 | a new product stores its fields and starts with zero stock, no movements and no observers |
| Products.Product.IsLow | 2_GRUPO_04_TF_FP2_25-2.py:102-104 | `verificar_stock_minimo`: `stock_actual <= stock_minimo`; the boundary is stated by `Products.Product.StatusNow`, `Products.Product.Shortfall` and `Queries.LowMembership` |
| Products.Product.StatusNow | 2_GRUPO_04_TF_FP2_25-2.py:122-124 | the status is "BAJO" exactly when `stock_actual <= stock_minimo`, equality included |
| Products.Product.Shortfall | 2_GRUPO_04_TF_FP2_25-2.py:112-120 | the alert appears exactly when the product is low, and the missing units are non-negative and lift the stock to the minimum |
| Products.Product.IsExpired | GRUPO_04_TF_FP2_25-2.py:96-102 | `esta_vencido` of a perishable product: `Products.Expired` on its expiry date |
| Products.StockMinimumAlert.Update | GRUPO_04_TF_FP2_25-2.py:11-14 | `actualizar` of the alert does nothing: it has no `modifies` clause, so it changes no object |
| Products.Product.NotifyObservers | GRUPO_04_TF_FP2_25-2.py:63-65 | calls `Update` on each observer in list order; it has no `modifies` clause, so notifying changes no object |
| Products.Product.AddObserver | GRUPO_04_TF_FP2_25-2.py:60-61 | the observer is appended to the list; stock and movements are unchanged |
| Products.Product.UpdateStock | GRUPO_04_TF_FP2_25-2.py:67-69 | the delta is added to the stock and the observers (whose update does nothing) are notified; movements and observers are unchanged |
| Products.Product.AddMovement | 2_GRUPO_04_TF_FP2_25-2.py:106-107 | the movement is appended to the product's own list; stock is unchanged |
| Queries.Matches | 2_GRUPO_04_TF_FP2_25-2.py:248-250 | the condition of `buscar_producto`: the chosen field, folded, contains the folded value; its consequences are stated by `Queries.UnknownCriterionFindsNothing`, `Queries.SearchIgnoresValueCase` and `Queries.BlankValueFindsAll` |
| Queries.Matching | 2_GRUPO_04_TF_FP2_25-2.py:245-252 | the matching products in catalog order; stated by `Queries.MatchingMembership`, and `Queries.SearchIn` is proved equal to it |
| Queries.SearchIn | 2_GRUPO_04_TF_FP2_25-2.py:245-252 | the loop collects exactly the matching products, in catalog order |
| Queries.MatchingMembership | 2_GRUPO_04_TF_FP2_25-2.py:245-252 | a product is found exactly when it is in the catalog and its chosen field contains the value, ignoring case |
| Queries.UnknownCriterionFindsNothing | 2_GRUPO_04_TF_FP2_25-2.py:245-252 | a criterion other than codigo, nombre and categoria finds nothing |
| Queries.SearchIgnoresValueCase | 2_GRUPO_04_TF_FP2_25-2.py:248-250 | searching for the lower-case form of a value finds the same products |
| Queries.BlankValueFindsAll | 2_GRUPO_04_TF_FP2_25-2.py:245-252 | for a known criterion, the empty value finds the whole catalog in order |
| Queries.Tabulate | 2_GRUPO_04_TF_FP2_25-2.py:289-298 | the report loop yields a row per product and the low-stock list, as the report functions define them |
| Queries.RowsShape | 2_GRUPO_04_TF_FP2_25-2.py:291-295 | one row per product, in order, and a row says "BAJO" exactly when its product is at or below its minimum |
| Queries.LowOf | 2_GRUPO_04_TF_FP2_25-2.py:289-298 | `productos_bajo_stock`; stated by `Queries.LowMembership` and `Queries.LowOfConcat` |
| Queries.LowMembership | 2_GRUPO_04_TF_FP2_25-2.py:297-298 | a product is on the low list exactly when it is in the catalog and at or below its minimum |
| Queries.LowOfConcat | 2_GRUPO_04_TF_FP2_25-2.py:289-298 | the low list of a catalog is the low list of its first part followed by that of the rest, so it keeps catalog order |
| Queries.InsertByName | 2_GRUPO_04_TF_FP2_25-2.py:315 | inserting adds exactly one product to the multiset |
| Queries.SortByName | 2_GRUPO_04_TF_FP2_25-2.py:315 | the sorted listing is a permutation of the catalog |
| Queries.InsertByNameSorted | 2_GRUPO_04_TF_FP2_25-2.py:315 | inserting into a name-sorted list keeps it sorted |
| Queries.InsertByNameStable | 2_GRUPO_04_TF_FP2_25-2.py:315 | the inserted product lands before every product already there with its name |
| Queries.SortByNameSorted | 2_GRUPO_04_TF_FP2_25-2.py:315 | the listing is in non-decreasing name order |
| Queries.SortByNameStable | GRUPO_04_TF_FP2_25-2.py:267 | the sort is stable: the products of any one name appear in catalog order |
| Queries.Valuate | 2_GRUPO_04_TF_FP2_25-2.py:340-348 | the valuation loop gives each product's row (unit value, `stock * unit`) and the running total |
| Queries.TotalValueOne | 2_GRUPO_04_TF_FP2_25-2.py:347-348 | a one-product catalog is worth its stock times its unit value |
| Queries.TotalIsSumOfRows | GRUPO_04_TF_FP2_25-2.py:290-296 | there is one row per product, and the total is the sum of the per-product values shown in them |
| Queries.TotalNonNegative | 2_GRUPO_04_TF_FP2_25-2.py:340-348 | with non-negative stock, costs and taxes the total is non-negative |
| Bookkeeping.CatalogOf | 2_GRUPO_04_TF_FP2_25-2.py:242-247 | `values()` yields one product per code in insertion order |
| Bookkeeping.OrderAfterInsert | 2_GRUPO_04_TF_FP2_25-2.py:242 | storing a fresh code appends it to the iteration order and keeps it duplicate-free and complete |
| Bookkeeping.ListsGiveStock | 2_GRUPO_04_TF_FP2_25-2.py:259-262 | per-product lists kept equal to the log's projections give stock equal to the logged sum |
| Bookkeeping.AfterInsert | 2_GRUPO_04_TF_FP2_25-2.py:53-67 | a new product with no stock and no movements under a fresh code keeps the code and log invariants |
| Bookkeeping.CodesAfterAppend | 2_GRUPO_04_TF_FP2_25-2.py:258-260 | logging a movement of a catalog product keeps every logged code in the catalog |
| Bookkeeping.StockAfterAppend | prog_inv_v0.py:148-151 | logging a movement and adding its quantity to its product keeps every stock equal to its logged sum |
| Bookkeeping.ListsAfterAppend | 2_GRUPO_04_TF_FP2_25-2.py:259-262 | appending the movement to both lists with the stock update keeps every list equal to its projection and every stock equal to its list's sum |
| TypedLedger.ResolveKind | 2_GRUPO_04_TF_FP2_25-2.py:227-240 | "nacional" with a region and "importado" with a tax succeed with that kind; each missing field and any other type name gives its `ValueError` |
| TypedLedger.TypeLabel | 2_GRUPO_04_TF_FP2_25-2.py:293 | the report's type column is "NACIONAL" exactly for domestic products and "IMPORTADO" otherwise |
| TypedLedger.UnwatchedAfterInsert | 2_GRUPO_04_TF_FP2_25-2.py:242 | storing a product without observers keeps every product without observers |
| TypedLedger.Ledger.constructor | 2_GRUPO_04_TF_FP2_25-2.py:210-215 | the ledger starts empty and valid |
| TypedLedger.Ledger.Register | 2_GRUPO_04_TF_FP2_25-2.py:224-243 | a duplicate code fails with `CodigoDuplicado` before the kind is checked; a bad kind fails with its `ValueError`; a failure changes nothing; success stores a fresh product with zero stock and no movements at the end of the order |
| TypedLedger.Ledger.Search | 2_GRUPO_04_TF_FP2_25-2.py:245-252 | the matching catalog products, in catalog order |
| TypedLedger.Ledger.Inbound | 2_GRUPO_04_TF_FP2_25-2.py:254-263 | an unknown code fails with `ProductoNoEncontrado` and changes nothing; otherwise one `ingreso_` movement is appended to both lists and the stock rises by `cantidad`; other products are untouched; for `cantidad >= 0` non-negative stock is kept |
| TypedLedger.Ledger.Outbound | 2_GRUPO_04_TF_FP2_25-2.py:265-280 | unknown code or `stock < cantidad` fails with the matching error and changes nothing; otherwise a `salida_` movement of `-cantidad` is appended to both lists, the stock falls by `cantidad` and stays non-negative |
| TypedLedger.Ledger.Post | 2_GRUPO_04_TF_FP2_25-2.py:259-262 | the movement joins the global log and its product's list, its quantity is added to that stock, no other product changes, and the invariant is kept |
| TypedLedger.Ledger.StockReport | 2_GRUPO_04_TF_FP2_25-2.py:282-304 | a row per product and the low list, in catalog order |
| TypedLedger.Ledger.SortedListing | 2_GRUPO_04_TF_FP2_25-2.py:306-330 | the same report over the catalog stably sorted by name |
| TypedLedger.Ledger.InventoryValuation | 2_GRUPO_04_TF_FP2_25-2.py:332-352 | the variant-aware rows and their total over the catalog |
| TypedLedger.Ledger.MovementHistory | 2_GRUPO_04_TF_FP2_25-2.py:354-366 | a movement is returned exactly when it is in the global log and passes every active filter; the result is no longer than the log |
| TypedLedger.Ledger.StockMatchesHistory | 2_GRUPO_04_TF_FP2_25-2.py:354-366 | a product's own list is its history, and its stock is the sum of that history |
| SilentLedger.KindOf | GRUPO_04_TF_FP2_25-2.py:185-190 | "perecible" wins over "importado"; neither key gives a plain product; never a domestic one |
| SilentLedger.WatchedAfterInsert | GRUPO_04_TF_FP2_25-2.py:192-193 | storing a product watched by the alert keeps every product watched by it alone |
| SilentLedger.ConsistentAfterInsert | GRUPO_04_TF_FP2_25-2.py:181-194 | registering a fresh, empty, watched product keeps the invariant |
| SilentLedger.Ledger.constructor | GRUPO_04_TF_FP2_25-2.py:166-172 | the ledger starts empty and valid |
| SilentLedger.Ledger.Register | GRUPO_04_TF_FP2_25-2.py:174-194 | a duplicate code returns `None` and changes nothing; otherwise a fresh product of the selected kind, with zero stock, no movements and the alert attached, is stored at the end of the order |
| SilentLedger.Ledger.Search | GRUPO_04_TF_FP2_25-2.py:196-203 | the matching catalog products, in catalog order |
| SilentLedger.Ledger.Inbound | GRUPO_04_TF_FP2_25-2.py:205-216 | `None` and no change for an unknown code; otherwise the movement is appended to both lists and the stock rises by `cantidad` |
| SilentLedger.Ledger.Outbound | GRUPO_04_TF_FP2_25-2.py:218-233 | `None` and no change for an unknown code or `stock < cantidad`; otherwise `-cantidad` is appended to both lists and the stock falls, staying non-negative |
| SilentLedger.Ledger.Post | GRUPO_04_TF_FP2_25-2.py:210-215 | the movement joins both lists and its quantity is added to its product's stock; nothing else changes and the invariant, observers included, is kept |
| SilentLedger.Ledger.StockReport | GRUPO_04_TF_FP2_25-2.py:235-255 | a row per product and the low list, in catalog order |
| SilentLedger.Ledger.SortedListing | GRUPO_04_TF_FP2_25-2.py:257-280 | the same report over the catalog stably sorted by name |
| SilentLedger.Ledger.InventoryValuation | GRUPO_04_TF_FP2_25-2.py:282-300 | tax-inclusive for imported products, raw cost for plain and perishable ones, with their total |
| SilentLedger.Ledger.MovementHistory | GRUPO_04_TF_FP2_25-2.py:302-314 | a movement is returned exactly when it is in the global log and passes every active filter; the result is no longer than the log |
| SilentLedger.Ledger.StockMatchesHistory | GRUPO_04_TF_FP2_25-2.py:302-314 | a product's own list is its history, and its stock is the sum of that history |
| PlainLedger.ValuateAtCost | prog_inv_v0.py:224-227 | the valuation loop gives `stock * costo_unitario` per product and their running total |
| PlainLedger.RawTotalIsSumOfRows | prog_inv_v0.py:224-227 | one row per product, and the total is the sum of the per-product values |
| PlainLedger.RawTotalOfPlain | prog_inv_v0.py:224-226 | for plain products the raw valuation equals the variant-aware one of the later versions |
| PlainLedger.PlainAfterInsert | prog_inv_v0.py:129-131 | storing a plain, watched product without a list keeps the whole catalog so |
| PlainLedger.ConsistentAfterInsert | prog_inv_v0.py:124-132 | registering a fresh plain product with zero stock keeps the invariant |
| PlainLedger.Ledger.constructor | prog_inv_v0.py:116-122 | the ledger starts empty and valid |
| PlainLedger.Ledger.Register | prog_inv_v0.py:124-132 | a duplicate code returns `None` and changes nothing; otherwise a fresh plain product with zero stock and the alert attached is stored at the end of the order |
| PlainLedger.Ledger.Search | prog_inv_v0.py:134-141 | the matching catalog products, in catalog order |
| PlainLedger.Ledger.Inbound | prog_inv_v0.py:143-152 | `None` and no change for an unknown code; otherwise one movement of `cantidad` is logged and added to the stock |
| PlainLedger.Ledger.Outbound | prog_inv_v0.py:154-167 | `None` and no change for an unknown code or `stock < cantidad`; otherwise `-cantidad` is logged and subtracted, leaving the stock non-negative |
| PlainLedger.Ledger.Post | prog_inv_v0.py:148-151 | the movement is logged and its quantity added to its product; no other product changes and the invariant is kept |
| PlainLedger.Ledger.StockReport | prog_inv_v0.py:169-189 | a row per product and the low list, in catalog order |
| PlainLedger.Ledger.SortedListing | prog_inv_v0.py:191-214 | the same report over the catalog stably sorted by name |
| PlainLedger.Ledger.InventoryValuation | prog_inv_v0.py:216-230 | raw-cost rows and total, which for this all-plain catalog equals the variant-aware total |
| PlainLedger.Ledger.MovementHistory | prog_inv_v0.py:232-244 | a movement is returned exactly when it is in the global log and passes every active filter; the result is no longer than the log |
| PlainLedger.Ledger.StockMatchesHistory | prog_inv_v0.py:232-244 | a product's stock is the sum of the quantities of its history |

## Left out

- Menus, `main`, `input()`, screen clearing and the seed data: they are user interaction, not ledger logic.
- Printing and `__str__`: column widths, `strftime` and `.2f` rounding are not modelled. The reports are modelled as the values they show: the rows, the status, the type column, the low list and the shortfall. `mostrar_historial` and `mostrar_producto_especifico` only print.
- Floating point: costs and taxes are exact `real`s. No claim is made about binary rounding, for example that 120 × 1.18 prints as 141.60.
- Clock: `datetime.now()` is not modelled. The movement timestamp `now` and the day `today` of `esta_vencido` are parameters. Dates and times are integers (a day number, plus seconds for a datetime expiry).
- Singleton: the `__new__` mechanics are not modelled. The model is one ledger object built by its constructor.
- Product reference: a `Movimiento` holds the product object in the source and only its code in the model. Codes are unique and immutable, so the code identifies the product.
- `TypeError` check: `Movimiento`'s `isinstance` check is subsumed by Dafny's types.
- `hasattr`: the valuation's probe is a match on the product's kind.
- Dictionary keys: `datos_extra` and `tipo_extra` are modelled by which keys they hold. A value the caller puts under a key is taken as given.
- Text.Lower: folds ASCII letters only, because Unicode case mapping is not modelled.
- Types: `int()` parsing of quantities, and argument types other than those declared, are outside the model.
- Concurrency: the source has none.
- Default arguments: `costo_unitario=0`, `tipo_producto="nacional"`, `datos_extra=None`, `tipo_extra=None`, `tipo_ingreso="compra"`, `tipo_salida="venta"` and `usuario="Sistema"` are not modelled. Every such argument is a required parameter, and no operation falls back to `SystemUser` by itself.
- Movements.History: in the source the unfiltered history is the ledger's own `__movimientos` list. The caller then holds the live log: later movements show up in it, and changing it changes the log. The model returns a sequence value, a copy, so this aliasing is not captured.
- TypedLedger.Ledger.MovementHistory: same aliasing as `Movements.History`.
- SilentLedger.Ledger.MovementHistory: same aliasing as `Movements.History`.
- PlainLedger.Ledger.MovementHistory: same aliasing as `Movements.History`.
- TypedLedger.Ledger.Inbound: states non-negative stock only when `cantidad >= 0`, because the code has no sign check.
- SilentLedger.Ledger.Inbound: same reason.
- PlainLedger.Ledger.Inbound: same reason.
