/**
 * The ledger of `2_GRUPO_04_TF_FP2_25-2.py`: domestic and imported products,
 * typed errors, and a movement list kept in each product besides the global log.
 */
module TypedLedger {
  import opened Wrappers
  import opened Movements
  import opened Products
  import opened Queries
  import opened Bookkeeping

  /** The `ValueError`s of registration. */
  datatype ValueErrorKind = MissingRegion | MissingTax | UnknownType(tipo: string)

  /** The exceptions the ledger raises (`ErrorInventario` and its subclasses, and `ValueError`). */
  datatype Error =
    | CodigoDuplicado(codigo: string)
    | ProductoNoEncontrado(codigo: string)
    | StockInsuficiente(nombre: string, actual: int, solicitado: int)
    | ValueError(reason: ValueErrorKind)

  /**
   * `datos_extra`: which of the two keys the dictionary holds. `None` and the
   * empty dictionary are both `ExtraData(None, None)`.
   */
  datatype ExtraData = ExtraData(regionOrigen: Option<string>, impuesto: Option<real>)

  /** The kind `registrar_producto` builds for `tipo_producto`, or the `ValueError` it raises. */
  function ResolveKind(tipo: string, extra: ExtraData): (r: Result<Kind, Error>)
    ensures r.Success? <==> (tipo == "nacional" && extra.regionOrigen.Some?) ||
                            (tipo == "importado" && extra.impuesto.Some?)
    ensures r.Success? ==>
      r.value == if tipo == "nacional" then Nacional(extra.regionOrigen.value) else Importado(extra.impuesto.value)
    ensures tipo == "nacional" && extra.regionOrigen.None? ==> r == Failure(ValueError(MissingRegion))
    ensures tipo == "importado" && extra.impuesto.None? ==> r == Failure(ValueError(MissingTax))
    ensures tipo != "nacional" && tipo != "importado" ==> r == Failure(ValueError(UnknownType(tipo)))
  {
    if tipo == "nacional" then
      if extra.regionOrigen.None? then Failure(ValueError(MissingRegion))
      else Success(Nacional(extra.regionOrigen.value))
    else if tipo == "importado" then
      if extra.impuesto.None? then Failure(ValueError(MissingTax))
      else Success(Importado(extra.impuesto.value))
    else Failure(ValueError(UnknownType(tipo)))
  }

  /** The report's `tipo` column: anything that is not domestic is shown as imported. */
  function TypeLabel(k: Kind): (r: string)
    ensures r == "NACIONAL" <==> k.Nacional?
    ensures r == "NACIONAL" || r == "IMPORTADO"
  {
    if k.Nacional? then "NACIONAL" else "IMPORTADO"
  }

  /** No product has an observer: this version's products keep no observer list. */
  ghost predicate Unwatched(products: map<string, Product>)
    reads products.Values
  {
    forall c :: c in products ==> products[c].observers == []
  }

  lemma UnwatchedAfterInsert(products: map<string, Product>, c: string, p: Product)
    requires Unwatched(products) && p.observers == []
    ensures Unwatched(products[c := p])
  {
    var updated := products[c := p];
    forall k | k in updated ensures updated[k].observers == [] {
      if k != c {
        assert updated[k] == products[k];
      }
    }
  }

  /** `SistemaInventario`: the product catalog and the global, append-only movement log. */
  class Ledger {
    /** `__productos`. */
    var products: map<string, Product>
    /** The iteration order of `__productos`: the codes in order of registration. */
    var order: seq<string>
    /** `__movimientos`, in chronological order. */
    var log: seq<Movement>

    /**
     * The catalog order lists each code once; each product is stored under its own
     * code (so no two codes share a product); every logged movement names a catalog
     * product; each product's movement list is the global log projected onto its
     * code, with the stock equal to the sum of that list; and no product has an
     * observer (so updating a stock notifies no one, as `actualizar_stock` here does not).
     */
    ghost predicate Valid()
      reads this, products.Values
    {
      OrderMatches(order, products) && CodesMatch(products, log) && ListsFromLog(products, log)
      && Unwatched(products)
    }

    ghost predicate StockNonNegative()
      reads this, products.Values
    {
      forall c :: c in products ==> products[c].stock >= 0
    }

    /** The singleton's initial state: no products, no movements. */
    constructor ()
      ensures Valid()
      ensures products == map[] && order == [] && log == []
    {
      products := map[];
      order := [];
      log := [];
    }

    /** The products in catalog (insertion) order: `__productos.values()`. */
    function Catalog(): seq<Product>
      reads this
      requires forall i :: 0 <= i < |order| ==> order[i] in products
    {
      CatalogOf(products, order)
    }

    /**
     * `registrar_producto`. A duplicate code is refused before the kind is examined;
     * then the kind must be "nacional" with a region or "importado" with a tax.
     * On success the new product is stored under its code, at the end of the
     * catalog order, with zero stock and no movements.
     */
    method Register(codigo: string, nombre: string, categoria: string, stockMinimo: int,
                    proveedorInfo: SupplierInfo, costo: real, tipo: string, extra: ExtraData)
      returns (r: Result<Product, Error>)
      requires Valid()
      modifies this
      ensures Valid()
      ensures log == old(log)
      ensures codigo in old(products) ==> r == Failure(CodigoDuplicado(codigo))
      ensures codigo !in old(products) && ResolveKind(tipo, extra).Failure? ==>
        r == Failure(ResolveKind(tipo, extra).error)
      ensures r.Failure? ==> products == old(products) && order == old(order)
      ensures r.Success? <==> codigo !in old(products) && ResolveKind(tipo, extra).Success?
      ensures r.Success? ==>
        && fresh(r.value)
        && products == old(products)[codigo := r.value]
        && order == old(order) + [codigo]
        && r.value.codigo == codigo && r.value.nombre == nombre && r.value.categoria == categoria
        && r.value.stockMinimo == stockMinimo && r.value.costo == costo
        && r.value.proveedor == Given(ToSupplier(proveedorInfo))
        && r.value.kind == ResolveKind(tipo, extra).value
        && r.value.stock == 0 && r.value.movements == [] && r.value.observers == []
    {
      if codigo in products {
        return Failure(CodigoDuplicado(codigo));
      }
      var kind := ResolveKind(tipo, extra);
      if kind.Failure? {
        return Failure(kind.error);
      }
      var producto := new Product(codigo, nombre, categoria, stockMinimo,
                                  Given(ToSupplier(proveedorInfo)), costo, kind.value);
      assert Valid();
      ghost var products0, order0 := products, order;
      products := products[codigo := producto];
      order := order + [codigo];
      AfterInsert(products0, log, codigo, producto);
      OrderAfterInsert(order0, products0, codigo, producto);
      UnwatchedAfterInsert(products0, codigo, producto);
      r := Success(producto);
    }

    /** `buscar_producto`: the catalog products whose chosen field contains the value, in catalog order. */
    method Search(criterio: string, valor: string) returns (resultados: seq<Product>)
      requires Valid()
      ensures resultados == Matching(Catalog(), criterio, valor)
    {
      resultados := SearchIn(Catalog(), criterio, valor);
    }

    /**
     * `registrar_ingreso`. An unknown code fails and changes nothing. Otherwise one
     * movement `"ingreso_" + reason` with quantity `cantidad` is appended to the log
     * and to the product's list, and the stock grows by `cantidad` (no sign check).
     */
    method Inbound(codigo: string, cantidad: int, tipoIngreso: string, usuario: string, now: int)
      returns (r: Result<Movement, Error>)
      requires Valid()
      modifies this, products.Values
      ensures Valid()
      ensures products == old(products) && order == old(order)
      ensures codigo !in products ==>
        r == Failure(ProductoNoEncontrado(codigo)) && log == old(log) && unchanged(products.Values)
      ensures codigo in products ==>
        && r == Success(Movement(InboundTipo(tipoIngreso), codigo, cantidad, now, usuario))
        && log == old(log) + [r.value]
        && products[codigo].stock == old(products[codigo].stock) + cantidad
        && products[codigo].movements == old(products[codigo].movements) + [r.value]
      ensures forall c :: c in products && c != codigo ==>
        products[c].stock == old(products[c].stock) && products[c].movements == old(products[c].movements)
      ensures cantidad >= 0 && old(StockNonNegative()) ==> StockNonNegative()
    {
      if codigo !in products {
        return Failure(ProductoNoEncontrado(codigo));
      }
      var movimiento := Movement(InboundTipo(tipoIngreso), codigo, cantidad, now, usuario);
      Post(movimiento);
      if old(StockNonNegative()) && products[codigo].stock >= 0 {
        forall c | c in products ensures products[c].stock >= 0 {
          if c != codigo {
            assert products[c].stock == old(products[c].stock);
          }
        }
      }
      r := Success(movimiento);
    }

    /**
     * `registrar_salida`. An unknown code, or a stock below `cantidad`, fails and
     * changes nothing. Otherwise one movement `"salida_" + reason` with quantity
     * `-cantidad` is appended to both lists and the stock drops by `cantidad`;
     * the guard leaves the new stock non-negative whatever the sign of `cantidad`.
     */
    method Outbound(codigo: string, cantidad: int, tipoSalida: string, usuario: string, now: int)
      returns (r: Result<Movement, Error>)
      requires Valid()
      modifies this, products.Values
      ensures Valid()
      ensures products == old(products) && order == old(order)
      ensures codigo !in products ==>
        r == Failure(ProductoNoEncontrado(codigo)) && log == old(log) && unchanged(products.Values)
      ensures codigo in products && old(products[codigo].stock) < cantidad ==>
        && r == Failure(StockInsuficiente(products[codigo].nombre, old(products[codigo].stock), cantidad))
        && log == old(log) && unchanged(products.Values)
      ensures codigo in products && old(products[codigo].stock) >= cantidad ==>
        && r == Success(Movement(OutboundTipo(tipoSalida), codigo, -cantidad, now, usuario))
        && log == old(log) + [r.value]
        && products[codigo].stock == old(products[codigo].stock) - cantidad
        && products[codigo].stock >= 0
        && products[codigo].movements == old(products[codigo].movements) + [r.value]
      ensures forall c :: c in products && c != codigo ==>
        products[c].stock == old(products[c].stock) && products[c].movements == old(products[c].movements)
      ensures old(StockNonNegative()) ==> StockNonNegative()
    {
      if codigo !in products {
        return Failure(ProductoNoEncontrado(codigo));
      }
      var producto := products[codigo];
      if producto.stock < cantidad {
        return Failure(StockInsuficiente(producto.nombre, producto.stock, cantidad));
      }
      var movimiento := Movement(OutboundTipo(tipoSalida), codigo, -cantidad, now, usuario);
      Post(movimiento);
      if old(StockNonNegative()) && products[codigo].stock >= 0 {
        forall c | c in products ensures products[c].stock >= 0 {
          if c != codigo {
            assert products[c].stock == old(products[c].stock);
          }
        }
      }
      r := Success(movimiento);
    }

    /**
     * Records `m` against the product it names: the movement joins the ledger's log and the product's own list,
     * and its quantity is added to that product's stock; no other product changes.
     */
    method Post(m: Movement)
      requires Valid() && m.code in products
      modifies this, products[m.code]
      ensures Valid()
      ensures products == old(products) && order == old(order) && log == old(log) + [m]
      ensures products[m.code].stock == old(products[m.code].stock) + m.cantidad
      ensures products[m.code].movements == old(products[m.code].movements) + [m]
      ensures forall c :: c in products && c != m.code ==>
        products[c].stock == old(products[c].stock) && products[c].movements == old(products[c].movements)
    {
      var producto := products[m.code];
      assert forall c :: c in products && c != m.code ==> products[c] != producto;
      ghost var log0 := log;
      CodesAfterAppend(products, log, m);
      log := log + [m];
      producto.UpdateStock(m.cantidad);
      assert forall c :: c in products && c != m.code ==>
        products[c].stock == old(products[c].stock) && products[c].movements == old(products[c].movements);
      producto.AddMovement(m);
      forall c | c in products
        ensures products[c].observers == old(products[c].observers)
        ensures c != m.code ==>
          products[c].stock == old(products[c].stock) && products[c].movements == old(products[c].movements)
      {
        if c != m.code {
          assert products[c] != producto;
        }
      }
      assert Unwatched(products);
      ListsAfterAppend(products, log0, m);
    }

    /** `generar_reporte_stock`: a row per product and the low-stock sub-list, in catalog order. */
    method StockReport() returns (rep: Report)
      requires Valid()
      ensures rep == ReportOf(Catalog())
    {
      rep := Tabulate(Catalog());
    }

    /** `mostrar_productos_ordenados`: the same report over the catalog sorted stably by name. */
    method SortedListing() returns (rep: Report)
      requires Valid()
      ensures rep == ReportOf(SortByName(Catalog()))
    {
      rep := Tabulate(SortByName(Catalog()));
    }

    /** `calcular_valor_inventario`: tax-inclusive for imported products, raw cost for domestic ones. */
    method InventoryValuation() returns (v: Valuation)
      requires Valid()
      ensures v == Valuation(ValuationRows(Catalog()), TotalValue(Catalog()))
    {
      v := Valuate(Catalog());
    }

    /** `obtener_historial_movimientos`: exactly the logged movements that pass every active filter, in log order. */
    function MovementHistory(code: Option<string>, from: Option<int>, to: Option<int>): (r: seq<Movement>)
      reads this
      ensures forall m :: m in r <==> m in log && Passes(m, code, from, to)
      ensures |r| <= |log|
    {
      HistoryMembershipAll(log, code, from, to);
      History(log, code, from, to)
    }

    /**
     * The ledger's bookkeeping agrees with its history: a product's own movement list
     * is its history (for a non-empty code), and its stock is the sum of those quantities.
     */
    lemma StockMatchesHistory(c: string)
      requires Valid() && c in products && c != ""
      ensures products[c].movements == MovementHistory(Some(c), None, None)
      ensures products[c].stock == SumQty(MovementHistory(Some(c), None, None))
    {
      HistoryOfCode(log, c);
    }
  }

  /** A domestic product around its minimum: the low boundary, a refused outbound and the valuation. */
  method DomesticExample()
  {
    var ledger := new Ledger();
    var r := ledger.Register("NA001", "Perno", "Ferreteria", 50, NameOnly("Aceros SAC"), 15.0,
                             "nacional", ExtraData(Some("Lima"), None));
    var na := r.value;
    assert ledger.products == map["NA001" := na];
    DomesticMovements(ledger, na);
  }

  /** Thirty units in leave the product low, at its boundary or below. */
  method DomesticMovements(ledger: Ledger, na: Product)
    requires ledger.Valid() && ledger.products == map["NA001" := na] && ledger.order == ["NA001"]
    requires na.stock == 0 && na.nombre == "Perno" && na.stockMinimo == 50
    requires na.kind == Nacional("Lima") && na.costo == 15.0
    modifies ledger, na
  {
    var m := ledger.Inbound("NA001", 30, "compra", SystemUser, 1);
    assert na.stock == 30 && na.IsLow();
    DomesticRefusal(ledger, na);
  }

  /** Forty out of thirty are refused and change nothing; twenty-five more lift the product over its minimum. */
  method DomesticRefusal(ledger: Ledger, na: Product)
    requires ledger.Valid() && ledger.products == map["NA001" := na] && ledger.order == ["NA001"]
    requires na.stock == 30 && na.nombre == "Perno" && na.stockMinimo == 50
    requires na.kind == Nacional("Lima") && na.costo == 15.0
    modifies ledger, na
  {
    var m := ledger.Outbound("NA001", 40, "venta", SystemUser, 2);
    assert m == Failure(StockInsuficiente("Perno", 30, 40)) && na.stock == 30;
    m := ledger.Inbound("NA001", 25, "compra", SystemUser, 3);
    assert na.stock == 55 && !na.IsLow();
    ValueDomestic(ledger, na);
  }

  /** The valuation of the domestic product once it holds 55 units: 15.00 each. */
  method ValueDomestic(ledger: Ledger, na: Product)
    requires ledger.Valid() && ledger.order == ["NA001"] && "NA001" in ledger.products && ledger.products["NA001"] == na
    requires na.stock == 55 && na.kind == Nacional("Lima") && na.costo == 15.0
  {
    var v := ledger.InventoryValuation();
    assert ledger.Catalog() == [na];
    TotalValueOne(na);
    assert v.total == 825.0;
  }

  /** A second registration of a code is refused, whatever its kind data, and leaves the catalog as it was. */
  method DuplicateExample()
  {
    var ledger := new Ledger();
    var r := ledger.Register("NA001", "Perno", "Ferreteria", 50, NameOnly("Aceros SAC"), 15.0,
                             "nacional", ExtraData(Some("Lima"), None));
    var catalog := ledger.products;
    r := ledger.Register("NA001", "Otro", "Ferreteria", 5, NameOnly("X"), 1.0, "importado", ExtraData(None, None));
    assert r == Failure(CodigoDuplicado("NA001")) && ledger.products == catalog;
  }

  /** An imported product is registered with its tax and valued with the tax included. */
  method ImportedExample()
  {
    var ledger := new Ledger();
    var r := ledger.Register("IM001", "Motor", "Maquinaria", 1, NameOnly("Import SA"), 120.0,
                             "importado", ExtraData(None, Some(0.18)));
    var im := r.value;
    assert im.kind == Importado(0.18);
    assert ledger.order == ["IM001"] && ledger.products["IM001"] == im;
    ImportedInbound(ledger, im);
  }

  /** Two units come in. */
  method ImportedInbound(ledger: Ledger, im: Product)
    requires ledger.Valid() && ledger.order == ["IM001"] && "IM001" in ledger.products && ledger.products["IM001"] == im
    requires im.stock == 0 && im.kind == Importado(0.18) && im.costo == 120.0
    modifies ledger, im
  {
    var m := ledger.Inbound("IM001", 2, "compra", SystemUser, 4);
    ValueImported(ledger, im);
  }

  /** Two units at 120.00 plus 18% tax: 283.20. */
  method ValueImported(ledger: Ledger, im: Product)
    requires ledger.Valid() && ledger.order == ["IM001"] && "IM001" in ledger.products && ledger.products["IM001"] == im
    requires im.stock == 2 && im.kind == Importado(0.18) && im.costo == 120.0
  {
    var v := ledger.InventoryValuation();
    assert ledger.Catalog() == [im];
    TotalValueOne(im);
    assert UnitValue(im.kind, im.costo) == 141.6;
    assert v.total == 283.2;
  }

  /** No sign check: an outbound of a negative quantity passes the stock guard and raises the stock. */
  method NegativeOutboundExample()
  {
    var ledger := new Ledger();
    var r := ledger.Register("NA002", "Tuerca", "Ferreteria", 10, NameOnly("Aceros SAC"), 2.0,
                             "nacional", ExtraData(Some("Lima"), None));
    var na := r.value;
    assert ledger.products == map["NA002" := na];
    NegativeOutbound(ledger, na);
  }

  /** Minus five units out of an empty product are logged as plus five. */
  method NegativeOutbound(ledger: Ledger, na: Product)
    requires ledger.Valid() && ledger.products == map["NA002" := na] && na.stock == 0
    modifies ledger, na
  {
    var m := ledger.Outbound("NA002", -5, "ajuste", SystemUser, 1);
    assert na.stock == 5;
  }
}
