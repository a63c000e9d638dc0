/**
 * The ledger of `prog_inv_v0.py`: plain products only, no movement list inside
 * the products, failures reported by returning `None`, and a valuation at raw
 * unit cost.
 */
module PlainLedger {
  import opened Wrappers
  import opened Movements
  import opened Products
  import opened Queries
  import opened Bookkeeping

  /** `valor_producto`: stock times the raw unit cost. */
  function RawValueOf(p: Product): real
    reads p
  {
    p.stock as real * p.costo
  }

  function RawValuationRowOf(p: Product): ValuationRow
    reads p
  {
    ValuationRow(p.nombre, p.kind, p.stock, p.costo, RawValueOf(p))
  }

  function RawValuationRows(ps: seq<Product>): seq<ValuationRow>
    reads ps
    decreases |ps|
  {
    if ps == [] then [] else RawValuationRows(ps[..|ps| - 1]) + [RawValuationRowOf(ps[|ps| - 1])]
  }

  /** `valor_total`: the sum of the raw values. */
  function RawTotal(ps: seq<Product>): real
    reads ps
    decreases |ps|
  {
    if ps == [] then 0.0 else RawTotal(ps[..|ps| - 1]) + RawValueOf(ps[|ps| - 1])
  }

  /** The loop of `calcular_valor_inventario`. */
  method ValuateAtCost(ps: seq<Product>) returns (v: Valuation)
    ensures v == Valuation(RawValuationRows(ps), RawTotal(ps))
  {
    var rows: seq<ValuationRow> := [];
    var total: real := 0.0;
    for i := 0 to |ps|
      invariant rows == RawValuationRows(ps[..i])
      invariant total == RawTotal(ps[..i])
    {
      assert ps[..i + 1][..i] == ps[..i];
      var p := ps[i];
      var valorProducto := p.stock as real * p.costo;
      assert RawValuationRowOf(p) == ValuationRow(p.nombre, p.kind, p.stock, p.costo, valorProducto);
      total := total + valorProducto;
      rows := rows + [ValuationRow(p.nombre, p.kind, p.stock, p.costo, valorProducto)];
    }
    assert ps[..|ps|] == ps;
    v := Valuation(rows, total);
  }

  /** The grand total is the sum of the per-product values. */
  lemma {:induction false} RawTotalIsSumOfRows(ps: seq<Product>)
    ensures |RawValuationRows(ps)| == |ps|
    ensures SumValor(RawValuationRows(ps)) == RawTotal(ps)
    decreases |ps|
  {
    if ps != [] {
      RawTotalIsSumOfRows(ps[..|ps| - 1]);
    }
  }

  /** For plain products the raw valuation agrees with the variant-aware one of the later versions. */
  lemma {:induction false} RawTotalOfPlain(ps: seq<Product>)
    requires forall i :: 0 <= i < |ps| ==> ps[i].kind == Plain
    ensures RawTotal(ps) == TotalValue(ps)
    decreases |ps|
  {
    if ps != [] {
      RawTotalOfPlain(ps[..|ps| - 1]);
    }
  }

  /** Every product is plain, watched by `a` alone, and keeps no movement list of its own. */
  ghost predicate PlainCatalog(products: map<string, Product>, a: StockMinimumAlert)
    reads products.Values
  {
    forall c :: c in products ==>
      products[c].kind == Plain && products[c].observers == [a] && products[c].movements == []
  }

  lemma PlainAfterInsert(products: map<string, Product>, a: StockMinimumAlert, c: string, p: Product)
    requires PlainCatalog(products, a)
    requires p.kind == Plain && p.observers == [a] && p.movements == []
    ensures PlainCatalog(products[c := p], a)
  {
    var updated := products[c := p];
    forall k | k in updated
      ensures updated[k].kind == Plain && updated[k].observers == [a] && updated[k].movements == []
    {
      if k != c {
        assert updated[k] == products[k];
      }
    }
  }

  /**
   * The ledger invariant of this version: the order lists each code once, each
   * product is stored under its own code, every logged movement names a catalog
   * product, each product's stock is the sum of the logged quantities for its
   * code, and every product is plain and watched by `a`.
   */
  ghost predicate Consistent(products: map<string, Product>, order: seq<string>, log: seq<Movement>,
                             a: StockMinimumAlert)
    reads products.Values
  {
    && OrderMatches(order, products) && CodesMatch(products, log) && StockFromLog(products, log)
    && PlainCatalog(products, a)
  }

  lemma ConsistentAfterInsert(products: map<string, Product>, order: seq<string>, log: seq<Movement>,
                              a: StockMinimumAlert, c: string, p: Product)
    requires Consistent(products, order, log, a) && c !in products
    requires p.codigo == c && p.stock == 0 && p.kind == Plain && p.observers == [a] && p.movements == []
    ensures Consistent(products[c := p], order + [c], log, a)
  {
    AfterInsert(products, log, c, p);
    OrderAfterInsert(order, products, c, p);
    PlainAfterInsert(products, a, c, p);
  }

  /** `SistemaInventario` of this version. */
  class Ledger {
    var products: map<string, Product>
    var order: seq<string>
    var log: seq<Movement>
    /** `__alertas`. */
    const alertas: StockMinimumAlert

    ghost predicate Valid()
      reads this, products.Values
    {
      Consistent(products, order, log, alertas)
    }

    ghost predicate StockNonNegative()
      reads this, products.Values
    {
      forall c :: c in products ==> products[c].stock >= 0
    }

    constructor ()
      ensures Valid()
      ensures products == map[] && order == [] && log == []
    {
      products := map[];
      order := [];
      log := [];
      alertas := new StockMinimumAlert();
    }

    function Catalog(): seq<Product>
      reads this
      requires forall i :: 0 <= i < |order| ==> order[i] in products
    {
      CatalogOf(products, order)
    }

    /** `registrar_producto`: `None` on a duplicate code; otherwise a plain product with zero stock. */
    method Register(codigo: string, nombre: string, categoria: string, stockMinimo: int,
                    proveedor: SupplierInfo, costo: real)
      returns (r: Option<Product>)
      requires Valid()
      modifies this
      ensures Valid()
      ensures log == old(log)
      ensures codigo in old(products) ==> r == None && products == old(products) && order == old(order)
      ensures codigo !in old(products) ==>
        && r.Some? && fresh(r.value)
        && products == old(products)[codigo := r.value]
        && order == old(order) + [codigo]
        && r.value.codigo == codigo && r.value.nombre == nombre && r.value.categoria == categoria
        && r.value.stockMinimo == stockMinimo && r.value.costo == costo && r.value.proveedor == proveedor
        && r.value.kind == Plain && r.value.stock == 0 && r.value.observers == [alertas]
    {
      if codigo in products {
        return None;
      }
      var producto := NewWatched(codigo, nombre, categoria, stockMinimo, proveedor, costo, Plain, alertas);
      assert Valid();
      ghost var products0, order0 := products, order;
      products := products[codigo := producto];
      order := order + [codigo];
      ConsistentAfterInsert(products0, order0, log, alertas, codigo, producto);
      r := Some(producto);
    }

    /** `buscar_producto`. */
    method Search(criterio: string, valor: string) returns (resultados: seq<Product>)
      requires Valid()
      ensures resultados == Matching(Catalog(), criterio, valor)
    {
      resultados := SearchIn(Catalog(), criterio, valor);
    }

    /** `registrar_ingreso`: `None` for an unknown code; otherwise one movement logged and `cantidad` added. */
    method Inbound(codigo: string, cantidad: int, tipoIngreso: string, usuario: string, now: int)
      returns (r: Option<Movement>)
      requires Valid()
      modifies this, products.Values
      ensures Valid()
      ensures products == old(products) && order == old(order)
      ensures codigo !in products ==> r == None && log == old(log) && unchanged(products.Values)
      ensures codigo in products ==>
        && r == Some(Movement(InboundTipo(tipoIngreso), codigo, cantidad, now, usuario))
        && log == old(log) + [r.value]
        && products[codigo].stock == old(products[codigo].stock) + cantidad
      ensures forall c :: c in products && c != codigo ==> products[c].stock == old(products[c].stock)
      ensures cantidad >= 0 && old(StockNonNegative()) ==> StockNonNegative()
    {
      if codigo !in products {
        return None;
      }
      var movimiento := Movement(InboundTipo(tipoIngreso), codigo, cantidad, now, usuario);
      Post(movimiento);
      if old(StockNonNegative()) && products[codigo].stock >= 0 {
        forall c | c in products ensures products[c].stock >= 0 {
          if c != codigo {
            assert products[c].stock == old(products[c].stock);
          }
        }
      }
      r := Some(movimiento);
    }

    /** `registrar_salida`: `None` and no change for an unknown code or insufficient stock; otherwise `-cantidad`. */
    method Outbound(codigo: string, cantidad: int, tipoSalida: string, usuario: string, now: int)
      returns (r: Option<Movement>)
      requires Valid()
      modifies this, products.Values
      ensures Valid()
      ensures products == old(products) && order == old(order)
      ensures (codigo !in products || old(products[codigo].stock) < cantidad) ==>
        r == None && log == old(log) && unchanged(products.Values)
      ensures codigo in products && old(products[codigo].stock) >= cantidad ==>
        && r == Some(Movement(OutboundTipo(tipoSalida), codigo, -cantidad, now, usuario))
        && log == old(log) + [r.value]
        && products[codigo].stock == old(products[codigo].stock) - cantidad
        && products[codigo].stock >= 0
      ensures forall c :: c in products && c != codigo ==> products[c].stock == old(products[c].stock)
      ensures old(StockNonNegative()) ==> StockNonNegative()
    {
      if codigo !in products {
        return None;
      }
      var producto := products[codigo];
      if producto.stock < cantidad {
        return None;
      }
      var movimiento := Movement(OutboundTipo(tipoSalida), codigo, -cantidad, now, usuario);
      Post(movimiento);
      if old(StockNonNegative()) && products[codigo].stock >= 0 {
        forall c | c in products ensures products[c].stock >= 0 {
          if c != codigo {
            assert products[c].stock == old(products[c].stock);
          }
        }
      }
      r := Some(movimiento);
    }

    /**
     * Records `m` against the product it names: the movement joins the ledger's log,
     * and its quantity is added to that product's stock; no other product changes.
     */
    method Post(m: Movement)
      requires Valid() && m.code in products
      modifies this, products[m.code]
      ensures Valid()
      ensures products == old(products) && order == old(order) && log == old(log) + [m]
      ensures products[m.code].stock == old(products[m.code].stock) + m.cantidad
      ensures products[m.code].movements == old(products[m.code].movements)
      ensures forall c :: c in products && c != m.code ==>
        products[c].stock == old(products[c].stock) && products[c].movements == old(products[c].movements)
    {
      var producto := products[m.code];
      assert forall c :: c in products && c != m.code ==> products[c] != producto;
      ghost var log0 := log;
      CodesAfterAppend(products, log, m);
      log := log + [m];
      producto.UpdateStock(m.cantidad);
      forall c | c in products
        ensures products[c].observers == old(products[c].observers)
        ensures products[c].movements == old(products[c].movements)
        ensures c != m.code ==> products[c].stock == old(products[c].stock)
      {
        if c != m.code {
          assert products[c] != producto;
        }
      }
      assert PlainCatalog(products, alertas);
      StockAfterAppend(products, log0, m);
    }

    /** `generar_reporte_stock`. */
    method StockReport() returns (rep: Report)
      requires Valid()
      ensures rep == ReportOf(Catalog())
    {
      rep := Tabulate(Catalog());
    }

    /** `mostrar_productos_ordenados`. */
    method SortedListing() returns (rep: Report)
      requires Valid()
      ensures rep == ReportOf(SortByName(Catalog()))
    {
      rep := Tabulate(SortByName(Catalog()));
    }

    /** `calcular_valor_inventario`: raw unit cost for every product. */
    method InventoryValuation() returns (v: Valuation)
      requires Valid()
      ensures v == Valuation(RawValuationRows(Catalog()), RawTotal(Catalog()))
      ensures v.total == TotalValue(Catalog())
    {
      v := ValuateAtCost(Catalog());
      RawTotalOfPlain(Catalog());
    }

    /** `obtener_historial_movimientos`: exactly the logged movements that pass every active filter, in log order. */
    function MovementHistory(code: Option<string>, from: Option<int>, to: Option<int>): (r: seq<Movement>)
      reads this
      ensures forall m :: m in r <==> m in log && Passes(m, code, from, to)
      ensures |r| <= |log|
    {
      HistoryMembershipAll(log, code, from, to);
      History(log, code, from, to)
    }

    /** A product's stock is the sum of the quantities of its history. */
    lemma StockMatchesHistory(c: string)
      requires Valid() && c in products && c != ""
      ensures products[c].stock == SumQty(MovementHistory(Some(c), None, None))
    {
      HistoryOfCode(log, c);
    }
  }
}
