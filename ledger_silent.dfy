/**
 * The ledger of `GRUPO_04_TF_FP2_25-2.py`: plain, perishable and imported
 * products, a stock-minimum observer attached to every product, a movement
 * list in each product, and failures reported by returning `None`.
 */
module SilentLedger {
  import opened Wrappers
  import opened Movements
  import opened Products
  import opened Queries
  import opened Bookkeeping

  /**
   * `tipo_extra`: which of the keys "perecible" and "importado" the dictionary
   * holds, with their values. `None` and the empty dictionary are both
   * `TypeExtra(None, None)`.
   */
  datatype TypeExtra = TypeExtra(perecible: Option<Expiry>, importado: Option<real>)

  /** The class `registrar_producto` instantiates: "perecible" wins over "importado"; neither gives a plain product. */
  function KindOf(extra: TypeExtra): (k: Kind)
    ensures !k.Nacional?
    ensures k.Perecible? <==> extra.perecible.Some?
    ensures k.Importado? <==> extra.perecible.None? && extra.importado.Some?
    ensures k.Perecible? ==> k.vencimiento == extra.perecible.value
    ensures k.Importado? ==> k.impuesto == extra.importado.value
  {
    if extra.perecible.Some? then Perecible(extra.perecible.value)
    else if extra.importado.Some? then Importado(extra.importado.value)
    else Plain
  }

  /** Every product has `a` as its only observer. */
  ghost predicate WatchedBy(products: map<string, Product>, a: StockMinimumAlert)
    reads products.Values
  {
    forall c :: c in products ==> products[c].observers == [a]
  }

  lemma WatchedAfterInsert(products: map<string, Product>, a: StockMinimumAlert, c: string, p: Product)
    requires WatchedBy(products, a) && p.observers == [a]
    ensures WatchedBy(products[c := p], a)
  {
    var updated := products[c := p];
    forall k | k in updated ensures updated[k].observers == [a] {
      if k != c {
        assert updated[k] == products[k];
      }
    }
  }

  /**
   * The ledger invariant of this version: that of the typed version (order,
   * codes, per-product lists and stock agree with the log), plus every product
   * watched by `a` alone.
   */
  ghost predicate Consistent(products: map<string, Product>, order: seq<string>, log: seq<Movement>,
                             a: StockMinimumAlert)
    reads products.Values
  {
    && OrderMatches(order, products) && CodesMatch(products, log) && ListsFromLog(products, log)
    && WatchedBy(products, a)
  }

  lemma ConsistentAfterInsert(products: map<string, Product>, order: seq<string>, log: seq<Movement>,
                              a: StockMinimumAlert, c: string, p: Product)
    requires Consistent(products, order, log, a) && c !in products
    requires p.codigo == c && p.stock == 0 && p.observers == [a] && p.movements == []
    ensures Consistent(products[c := p], order + [c], log, a)
  {
    AfterInsert(products, log, c, p);
    OrderAfterInsert(order, products, c, p);
    WatchedAfterInsert(products, a, c, p);
  }

  /** `SistemaInventario` of this version. */
  class Ledger {
    var products: map<string, Product>
    var order: seq<string>
    var log: seq<Movement>
    /** `__alertas`: the one observer every registered product notifies. */
    const alertas: StockMinimumAlert

    /**
     * The catalog order lists each code once, each product sits under its own code,
     * every logged movement names a catalog product, each product's movement list is
     * the log projected onto its code and sums to its stock, and every product is
     * watched by `alertas` alone.
     */
    ghost predicate Valid()
      reads this, products.Values
    {
      Consistent(products, order, log, alertas)
    }

    ghost predicate StockNonNegative()
      reads this, products.Values
    {
      forall c :: c in products ==> products[c].stock >= 0
    }

    constructor ()
      ensures Valid()
      ensures products == map[] && order == [] && log == []
    {
      products := map[];
      order := [];
      log := [];
      alertas := new StockMinimumAlert();
    }

    function Catalog(): seq<Product>
      reads this
      requires forall i :: 0 <= i < |order| ==> order[i] in products
    {
      CatalogOf(products, order)
    }

    /**
     * `registrar_producto`. A duplicate code returns `None` and changes nothing;
     * otherwise the product of the kind `tipo_extra` selects is stored with zero
     * stock, no movements and the alert observer attached.
     */
    method Register(codigo: string, nombre: string, categoria: string, stockMinimo: int,
                    proveedor: SupplierInfo, costo: real, extra: TypeExtra)
      returns (r: Option<Product>)
      requires Valid()
      modifies this
      ensures Valid()
      ensures log == old(log)
      ensures codigo in old(products) ==> r == None && products == old(products) && order == old(order)
      ensures codigo !in old(products) ==>
        && r.Some? && fresh(r.value)
        && products == old(products)[codigo := r.value]
        && order == old(order) + [codigo]
        && r.value.codigo == codigo && r.value.nombre == nombre && r.value.categoria == categoria
        && r.value.stockMinimo == stockMinimo && r.value.costo == costo && r.value.proveedor == proveedor
        && r.value.kind == KindOf(extra)
        && r.value.stock == 0 && r.value.movements == [] && r.value.observers == [alertas]
    {
      if codigo in products {
        return None;
      }
      var producto := NewWatched(codigo, nombre, categoria, stockMinimo, proveedor, costo, KindOf(extra), alertas);
      assert Valid();
      ghost var products0, order0 := products, order;
      products := products[codigo := producto];
      order := order + [codigo];
      ConsistentAfterInsert(products0, order0, log, alertas, codigo, producto);
      r := Some(producto);
    }

    /** `buscar_producto`. */
    method Search(criterio: string, valor: string) returns (resultados: seq<Product>)
      requires Valid()
      ensures resultados == Matching(Catalog(), criterio, valor)
    {
      resultados := SearchIn(Catalog(), criterio, valor);
    }

    /**
     * `registrar_ingreso`: `None` and no change for an unknown code; otherwise the
     * movement is appended to both lists and the stock grows by `cantidad`.
     */
    method Inbound(codigo: string, cantidad: int, tipoIngreso: string, usuario: string, now: int)
      returns (r: Option<Movement>)
      requires Valid()
      modifies this, products.Values
      ensures Valid()
      ensures products == old(products) && order == old(order)
      ensures codigo !in products ==> r == None && log == old(log) && unchanged(products.Values)
      ensures codigo in products ==>
        && r == Some(Movement(InboundTipo(tipoIngreso), codigo, cantidad, now, usuario))
        && log == old(log) + [r.value]
        && products[codigo].stock == old(products[codigo].stock) + cantidad
        && products[codigo].movements == old(products[codigo].movements) + [r.value]
      ensures forall c :: c in products && c != codigo ==>
        products[c].stock == old(products[c].stock) && products[c].movements == old(products[c].movements)
      ensures cantidad >= 0 && old(StockNonNegative()) ==> StockNonNegative()
    {
      if codigo !in products {
        return None;
      }
      var movimiento := Movement(InboundTipo(tipoIngreso), codigo, cantidad, now, usuario);
      Post(movimiento);
      if old(StockNonNegative()) && products[codigo].stock >= 0 {
        forall c | c in products ensures products[c].stock >= 0 {
          if c != codigo {
            assert products[c].stock == old(products[c].stock);
          }
        }
      }
      r := Some(movimiento);
    }

    /**
     * `registrar_salida`: `None` and no change for an unknown code or when the
     * stock is below `cantidad`; otherwise `-cantidad` is logged in both lists and
     * subtracted from the stock.
     */
    method Outbound(codigo: string, cantidad: int, tipoSalida: string, usuario: string, now: int)
      returns (r: Option<Movement>)
      requires Valid()
      modifies this, products.Values
      ensures Valid()
      ensures products == old(products) && order == old(order)
      ensures (codigo !in products || old(products[codigo].stock) < cantidad) ==>
        r == None && log == old(log) && unchanged(products.Values)
      ensures codigo in products && old(products[codigo].stock) >= cantidad ==>
        && r == Some(Movement(OutboundTipo(tipoSalida), codigo, -cantidad, now, usuario))
        && log == old(log) + [r.value]
        && products[codigo].stock == old(products[codigo].stock) - cantidad
        && products[codigo].stock >= 0
        && products[codigo].movements == old(products[codigo].movements) + [r.value]
      ensures forall c :: c in products && c != codigo ==>
        products[c].stock == old(products[c].stock) && products[c].movements == old(products[c].movements)
      ensures old(StockNonNegative()) ==> StockNonNegative()
    {
      if codigo !in products {
        return None;
      }
      var producto := products[codigo];
      if producto.stock < cantidad {
        return None;
      }
      var movimiento := Movement(OutboundTipo(tipoSalida), codigo, -cantidad, now, usuario);
      Post(movimiento);
      if old(StockNonNegative()) && products[codigo].stock >= 0 {
        forall c | c in products ensures products[c].stock >= 0 {
          if c != codigo {
            assert products[c].stock == old(products[c].stock);
          }
        }
      }
      r := Some(movimiento);
    }

    /**
     * Records `m` against the product it names: the movement joins the ledger's log and the product's own list,
     * and its quantity is added to that product's stock; no other product changes.
     */
    method Post(m: Movement)
      requires Valid() && m.code in products
      modifies this, products[m.code]
      ensures Valid()
      ensures products == old(products) && order == old(order) && log == old(log) + [m]
      ensures products[m.code].stock == old(products[m.code].stock) + m.cantidad
      ensures products[m.code].movements == old(products[m.code].movements) + [m]
      ensures forall c :: c in products && c != m.code ==>
        products[c].stock == old(products[c].stock) && products[c].movements == old(products[c].movements)
    {
      var producto := products[m.code];
      assert forall c :: c in products && c != m.code ==> products[c] != producto;
      ghost var log0 := log;
      CodesAfterAppend(products, log, m);
      log := log + [m];
      producto.UpdateStock(m.cantidad);
      assert forall c :: c in products && c != m.code ==>
        products[c].stock == old(products[c].stock) && products[c].movements == old(products[c].movements);
      producto.AddMovement(m);
      forall c | c in products
        ensures products[c].observers == old(products[c].observers)
        ensures c != m.code ==>
          products[c].stock == old(products[c].stock) && products[c].movements == old(products[c].movements)
      {
        if c != m.code {
          assert products[c] != producto;
        }
      }
      assert WatchedBy(products, alertas);
      ListsAfterAppend(products, log0, m);
    }

    /** `generar_reporte_stock`. */
    method StockReport() returns (rep: Report)
      requires Valid()
      ensures rep == ReportOf(Catalog())
    {
      rep := Tabulate(Catalog());
    }

    /** `mostrar_productos_ordenados`. */
    method SortedListing() returns (rep: Report)
      requires Valid()
      ensures rep == ReportOf(SortByName(Catalog()))
    {
      rep := Tabulate(SortByName(Catalog()));
    }

    /** `calcular_valor_inventario`: tax-inclusive for imported products, raw cost for plain and perishable ones. */
    method InventoryValuation() returns (v: Valuation)
      requires Valid()
      ensures v == Valuation(ValuationRows(Catalog()), TotalValue(Catalog()))
    {
      v := Valuate(Catalog());
    }

    /** `obtener_historial_movimientos`: exactly the logged movements that pass every active filter, in log order. */
    function MovementHistory(code: Option<string>, from: Option<int>, to: Option<int>): (r: seq<Movement>)
      reads this
      ensures forall m :: m in r <==> m in log && Passes(m, code, from, to)
      ensures |r| <= |log|
    {
      HistoryMembershipAll(log, code, from, to);
      History(log, code, from, to)
    }

    /** A product's own movement list is its history, and its stock the sum of those quantities. */
    lemma StockMatchesHistory(c: string)
      requires Valid() && c in products && c != ""
      ensures products[c].movements == MovementHistory(Some(c), None, None)
      ensures products[c].stock == SumQty(MovementHistory(Some(c), None, None))
    {
      HistoryOfCode(log, c);
    }
  }

  /** A perishable product is registered as such, with the observer attached, and expires after its day. */
  method PerishableExample()
  {
    var ledger := new Ledger();
    var r := ledger.Register("PE001", "Grasa", "Lubricantes", 10, NameOnly("Lubrisur"), 8.0,
                             TypeExtra(Some(AtTime(700, 3600)), Some(0.18)));
    var pe := r.value;
    assert pe.kind == Perecible(AtTime(700, 3600)) && pe.observers == [ledger.alertas];
    assert !pe.IsExpired(700) && pe.IsExpired(701);
    var m := ledger.Outbound("PE001", 1, "venta", SystemUser, 1);
    assert m == None && pe.stock == 0;
    m := ledger.Outbound("XX999", 1, "venta", SystemUser, 2);
    assert m == None;
  }
}
