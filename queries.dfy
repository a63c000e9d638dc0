/**
 * The read-only queries every version of the ledger runs over its catalog (the
 * products in insertion order): the case-insensitive search, the stock report
 * with its low-stock sub-list, the listing sorted by name, and the valuation.
 */
module Queries {
  import opened Seqs
  import opened Text
  import opened Products

  // ---------------------------------------------------------------- search

  /** `buscar_producto`'s condition: the chosen field contains the value, ignoring ASCII case. */
  predicate Matches(p: Product, criterio: string, valor: string)
  {
    (criterio == "codigo" && Contains(Lower(valor), Lower(p.codigo))) ||
    (criterio == "nombre" && Contains(Lower(valor), Lower(p.nombre))) ||
    (criterio == "categoria" && Contains(Lower(valor), Lower(p.categoria)))
  }

  /** The matching products, in catalog order. */
  function Matching(ps: seq<Product>, criterio: string, valor: string): seq<Product>
  {
    Filter(ps, (p: Product) => Matches(p, criterio, valor))
  }

  /** The loop of `buscar_producto`: collects the matches in order. */
  method SearchIn(ps: seq<Product>, criterio: string, valor: string) returns (resultados: seq<Product>)
    ensures resultados == Matching(ps, criterio, valor)
  {
    resultados := [];
    for i := 0 to |ps|
      invariant resultados == Matching(ps[..i], criterio, valor)
    {
      assert ps[..i + 1][..i] == ps[..i];
      if Matches(ps[i], criterio, valor) {
        resultados := resultados + [ps[i]];
      }
    }
    assert ps[..|ps|] == ps;
  }

  /** A product is found exactly when it is in the catalog and its chosen field contains the value. */
  lemma MatchingMembership(ps: seq<Product>, criterio: string, valor: string, p: Product)
    ensures p in Matching(ps, criterio, valor) <==> p in ps && Matches(p, criterio, valor)
  {
    FilterMembership(ps, (p: Product) => Matches(p, criterio, valor), p);
  }

  /** A criterion other than "codigo", "nombre" and "categoria" finds nothing. */
  lemma UnknownCriterionFindsNothing(ps: seq<Product>, criterio: string, valor: string)
    requires criterio != "codigo" && criterio != "nombre" && criterio != "categoria"
    ensures Matching(ps, criterio, valor) == []
  {
    if Matching(ps, criterio, valor) != [] {
      var p := Matching(ps, criterio, valor)[0];
      MatchingMembership(ps, criterio, valor, p);
    }
  }

  /** The search ignores case in the value: searching for its lower-case form finds the same products. */
  lemma SearchIgnoresValueCase(ps: seq<Product>, criterio: string, valor: string)
    ensures Matching(ps, criterio, Lower(valor)) == Matching(ps, criterio, valor)
  {
    LowerIdempotent(valor);
    FilterCongruent(ps, (p: Product) => Matches(p, criterio, Lower(valor)),
                        (p: Product) => Matches(p, criterio, valor));
  }

  /** For a known criterion, the empty value finds the whole catalog. */
  lemma BlankValueFindsAll(ps: seq<Product>, criterio: string)
    requires criterio == "codigo" || criterio == "nombre" || criterio == "categoria"
    ensures Matching(ps, criterio, "") == ps
  {
    forall i | 0 <= i < |ps| ensures Matches(ps[i], criterio, "") {
      EmptyContained(Lower(ps[i].codigo));
      EmptyContained(Lower(ps[i].nombre));
      EmptyContained(Lower(ps[i].categoria));
    }
    FilterKeepsAll(ps, (p: Product) => Matches(p, criterio, ""));
  }

  // ---------------------------------------------------------------- stock report

  /** One line of the stock report: code, name, category, stock, minimum, status and kind. */
  datatype ReportRow = ReportRow(codigo: string, nombre: string, categoria: string,
                                 stock: int, minimo: int, estado: Status, kind: Kind)

  /** A report: a row per product, and the products currently low. */
  datatype Report = Report(rows: seq<ReportRow>, low: seq<Product>)

  function RowOf(p: Product): ReportRow
    reads p
  {
    ReportRow(p.codigo, p.nombre, p.categoria, p.stock, p.stockMinimo, p.StatusNow(), p.kind)
  }

  function Rows(ps: seq<Product>): seq<ReportRow>
    reads ps
    decreases |ps|
  {
    if ps == [] then [] else Rows(ps[..|ps| - 1]) + [RowOf(ps[|ps| - 1])]
  }

  /** `productos_bajo_stock`: the products that are low, in the order given. */
  function LowOf(ps: seq<Product>): seq<Product>
    reads ps
    decreases |ps|
  {
    if ps == [] then []
    else LowOf(ps[..|ps| - 1]) + (if ps[|ps| - 1].IsLow() then [ps[|ps| - 1]] else [])
  }

  function ReportOf(ps: seq<Product>): Report
    reads ps
  {
    Report(Rows(ps), LowOf(ps))
  }

  /** The loop shared by `generar_reporte_stock` and `mostrar_productos_ordenados`. */
  method Tabulate(ps: seq<Product>) returns (rep: Report)
    ensures rep == ReportOf(ps)
  {
    var rows: seq<ReportRow> := [];
    var low: seq<Product> := [];
    for i := 0 to |ps|
      invariant rows == Rows(ps[..i])
      invariant low == LowOf(ps[..i])
    {
      assert ps[..i + 1][..i] == ps[..i];
      var p := ps[i];
      rows := rows + [ReportRow(p.codigo, p.nombre, p.categoria, p.stock, p.stockMinimo,
                                if p.stock <= p.stockMinimo then Bajo else Ok, p.kind)];
      if p.stock <= p.stockMinimo {
        low := low + [p];
      }
    }
    assert ps[..|ps|] == ps;
    rep := Report(rows, low);
  }

  /** The report has one row per product, in order, and a row says "BAJO" exactly when its product is low. */
  lemma {:induction false} RowsShape(ps: seq<Product>)
    ensures |Rows(ps)| == |ps|
    ensures forall i :: 0 <= i < |ps| ==> Rows(ps)[i] == RowOf(ps[i])
    ensures forall i :: 0 <= i < |ps| ==>
      (Rows(ps)[i].estado == Bajo <==> ps[i].stock <= ps[i].stockMinimo)
    decreases |ps|
  {
    if ps != [] {
      RowsShape(ps[..|ps| - 1]);
    }
  }

  /** A product is on the low list exactly when it is in the catalog and at or below its minimum. */
  lemma {:induction false} LowMembership(ps: seq<Product>, p: Product)
    ensures p in LowOf(ps) <==> p in ps && p.stock <= p.stockMinimo
    decreases |ps|
  {
    if ps != [] {
      assert ps == ps[..|ps| - 1] + [ps[|ps| - 1]];
      LowMembership(ps[..|ps| - 1], p);
    }
  }

  /** The low list of a catalog is the low list of its first part followed by that of the rest. */
  lemma {:induction false} LowOfConcat(a: seq<Product>, b: seq<Product>)
    ensures LowOf(a + b) == LowOf(a) + LowOf(b)
    decreases |b|
  {
    if b == [] {
      assert a + b == a;
    } else {
      assert (a + b)[..|a + b| - 1] == a + b[..|b| - 1];
      LowOfConcat(a, b[..|b| - 1]);
    }
  }

  // ---------------------------------------------------------------- sorted listing

  /** Non-decreasing in name. */
  predicate SortedByName(ps: seq<Product>)
  {
    forall i, j :: 0 <= i < j < |ps| ==> LexLe(ps[i].nombre, ps[j].nombre)
  }

  /** The products named `n`, in order: stability means this subsequence is the same before and after sorting. */
  function Named(ps: seq<Product>, n: string): seq<Product>
  {
    Filter(ps, (p: Product) => p.nombre == n)
  }

  /** Puts `x` before the first element whose name is not smaller than its own. */
  function InsertByName(x: Product, ps: seq<Product>): (r: seq<Product>)
    ensures multiset(r) == multiset(ps) + multiset{x}
    decreases |ps|
  {
    if ps == [] then [x]
    else if LexLe(x.nombre, ps[0].nombre) then [x] + ps
    else
      assert ps == [ps[0]] + ps[1..];
      [ps[0]] + InsertByName(x, ps[1..])
  }

  /** `sorted(productos, key=lambda x: x.nombre)`, as an insertion sort. */
  function SortByName(ps: seq<Product>): (r: seq<Product>)
    ensures multiset(r) == multiset(ps)
    decreases |ps|
  {
    if ps == [] then []
    else
      assert ps == [ps[0]] + ps[1..];
      InsertByName(ps[0], SortByName(ps[1..]))
  }

  lemma {:induction false} InsertByNameSorted(x: Product, ps: seq<Product>)
    requires SortedByName(ps)
    ensures SortedByName(InsertByName(x, ps))
    decreases |ps|
  {
    if ps != [] {
      if LexLe(x.nombre, ps[0].nombre) {
        forall j | 0 < j < |ps| + 1 ensures LexLe(x.nombre, ([x] + ps)[j].nombre) {
          if j > 1 {
            LexLeTransitive(x.nombre, ps[0].nombre, ps[j - 1].nombre);
          }
        }
      } else {
        LexLeTotal(x.nombre, ps[0].nombre);
        InsertByNameSorted(x, ps[1..]);
        var r := InsertByName(x, ps[1..]);
        forall k | 0 <= k < |r| ensures LexLe(ps[0].nombre, r[k].nombre) {
          assert r[k] in multiset(r);
          if r[k] != x {
            assert r[k] in ps[1..];
          }
        }
      }
    }
  }

  lemma NamedCons(y: Product, ps: seq<Product>, n: string)
    ensures Named([y] + ps, n) == (if y.nombre == n then [y] else []) + Named(ps, n)
  {
    var f := (p: Product) => p.nombre == n;
    FilterConcat([y], ps, f);
    assert Filter([y], f) == Filter([], f) + (if f(y) then [y] else []);
  }

  /** Moving `x` past an element of a different name does not change what either filter sees. */
  lemma StableStep(x: Product, y: Product, rest: seq<Product>, tail: seq<Product>, n: string)
    requires y.nombre != x.nombre
    requires Named(rest, n) == Named([x], n) + Named(tail, n)
    ensures Named([y] + rest, n) == Named([x], n) + Named([y] + tail, n)
  {
    NamedCons(y, rest, n);
    NamedCons(y, tail, n);
    NamedCons(x, [], n);
    assert [x] + [] == [x];
  }

  /** Inserting `x` puts it before every product already there that has its name. */
  lemma {:induction false} InsertByNameStable(x: Product, ps: seq<Product>, n: string)
    ensures Named(InsertByName(x, ps), n) == Named([x], n) + Named(ps, n)
    decreases |ps|
  {
    if ps == [] {
      assert Named([], n) == [];
    } else if LexLe(x.nombre, ps[0].nombre) {
      NamedFront(x, ps, n);
    } else {
      InsertByNameStable(x, ps[1..], n);
      // ps[0]'s name is strictly smaller than x's
      LexLeReflexive(x.nombre);
      StableStep(x, ps[0], InsertByName(x, ps[1..]), ps[1..], n);
      assert [ps[0]] + ps[1..] == ps;
    }
  }

  /** The sorted listing is in non-decreasing name order. */
  lemma {:induction false} SortByNameSorted(ps: seq<Product>)
    ensures SortedByName(SortByName(ps))
    decreases |ps|
  {
    if ps != [] {
      SortByNameSorted(ps[1..]);
      InsertByNameSorted(ps[0], SortByName(ps[1..]));
    }
  }

  /** Filtering by name distributes over putting one product in front. */
  lemma NamedFront(x: Product, ps: seq<Product>, n: string)
    ensures Named([x] + ps, n) == Named([x], n) + Named(ps, n)
  {
    NamedCons(x, ps, n);
    NamedCons(x, [], n);
    assert [x] + [] == [x];
  }

  /** The sort is stable: products with equal names keep their catalog order. */
  lemma {:induction false} SortByNameStable(ps: seq<Product>, n: string)
    ensures Named(SortByName(ps), n) == Named(ps, n)
    decreases |ps|
  {
    if ps != [] {
      var t := SortByName(ps[1..]);
      assert SortByName(ps) == InsertByName(ps[0], t);
      SortByNameStable(ps[1..], n);
      InsertByNameStable(ps[0], t, n);
      assert [ps[0]] + ps[1..] == ps;
      NamedFront(ps[0], ps[1..], n);
    }
  }

  // ---------------------------------------------------------------- valuation

  /** One line of the valuation: name, kind, stock, unit value and the product's value. */
  datatype ValuationRow = ValuationRow(nombre: string, kind: Kind, stock: int, unit: real, valor: real)

  /** The valuation: a row per product and the grand total. */
  datatype Valuation = Valuation(rows: seq<ValuationRow>, total: real)

  /** The value of a product's stock: `stock_actual * costo_unit`. */
  function ValueOf(p: Product): real
    reads p
  {
    p.stock as real * UnitValue(p.kind, p.costo)
  }

  function ValuationRowOf(p: Product): ValuationRow
    reads p
  {
    ValuationRow(p.nombre, p.kind, p.stock, UnitValue(p.kind, p.costo), ValueOf(p))
  }

  function ValuationRows(ps: seq<Product>): seq<ValuationRow>
    reads ps
    decreases |ps|
  {
    if ps == [] then [] else ValuationRows(ps[..|ps| - 1]) + [ValuationRowOf(ps[|ps| - 1])]
  }

  /** The grand total: the sum over the products of stock times unit value. */
  function TotalValue(ps: seq<Product>): real
    reads ps
    decreases |ps|
  {
    if ps == [] then 0.0 else TotalValue(ps[..|ps| - 1]) + ValueOf(ps[|ps| - 1])
  }

  function SumValor(rows: seq<ValuationRow>): real
    decreases |rows|
  {
    if rows == [] then 0.0 else SumValor(rows[..|rows| - 1]) + rows[|rows| - 1].valor
  }

  /** The loop of `calcular_valor_inventario`, variant-aware. */
  method Valuate(ps: seq<Product>) returns (v: Valuation)
    ensures v == Valuation(ValuationRows(ps), TotalValue(ps))
  {
    var rows: seq<ValuationRow> := [];
    var total: real := 0.0;
    for i := 0 to |ps|
      invariant rows == ValuationRows(ps[..i])
      invariant total == TotalValue(ps[..i])
    {
      assert ps[..i + 1][..i] == ps[..i];
      var p := ps[i];
      var costoUnit := p.costo;
      if p.kind.Importado? {
        costoUnit := CostWithTax(p.costo, p.kind.impuesto);
      }
      assert costoUnit == UnitValue(p.kind, p.costo);
      var valorProducto := p.stock as real * costoUnit;
      assert ValuationRowOf(p) == ValuationRow(p.nombre, p.kind, p.stock, costoUnit, valorProducto);
      total := total + valorProducto;
      rows := rows + [ValuationRow(p.nombre, p.kind, p.stock, costoUnit, valorProducto)];
    }
    assert ps[..|ps|] == ps;
    v := Valuation(rows, total);
  }

  /** A one-product catalog is worth that product's stock at its unit value. */
  lemma TotalValueOne(p: Product)
    ensures TotalValue([p]) == p.stock as real * UnitValue(p.kind, p.costo)
  {
    assert [p][..0] == [];
  }

  /** The grand total equals the sum of the per-product values shown in the rows. */
  lemma {:induction false} TotalIsSumOfRows(ps: seq<Product>)
    ensures |ValuationRows(ps)| == |ps|
    ensures SumValor(ValuationRows(ps)) == TotalValue(ps)
    decreases |ps|
  {
    if ps != [] {
      TotalIsSumOfRows(ps[..|ps| - 1]);
    }
  }

  /** With non-negative stock, costs and taxes, the inventory is never valued below zero. */
  lemma {:induction false} TotalNonNegative(ps: seq<Product>)
    requires forall i :: 0 <= i < |ps| ==> ps[i].stock >= 0 && ps[i].costo >= 0.0
    requires forall i :: 0 <= i < |ps| ==> ps[i].kind.Importado? ==> ps[i].kind.impuesto >= 0.0
    ensures TotalValue(ps) >= 0.0
    decreases |ps|
  {
    if ps != [] {
      var p := ps[|ps| - 1];
      TotalNonNegative(ps[..|ps| - 1]);
      assert UnitValue(p.kind, p.costo) >= 0.0;
      assert p.stock as real >= 0.0;
    }
  }
}
