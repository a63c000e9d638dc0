/**
 * Suppliers, product kinds and the `Producto` class: the fields every variant
 * shares, the in-place stock update with its observer notification, the
 * low-stock predicate and alert, the variant-aware unit valuation, and the
 * expiry check of perishable products.
 */
module Products {
  import opened Wrappers
  import opened Movements

  /** `Proveedor`: a supplier's name, tax id (RUC) and phone. */
  datatype Supplier = Supplier(nombre: string, ruc: string, telefono: string)

  const DefaultRuc: string := "00000000000"
  const DefaultTelefono: string := "999999999"

  /** What a caller passes as `proveedor_info`: a supplier object, or only a name. */
  datatype SupplierInfo = Given(supplier: Supplier) | NameOnly(name: string)

  /** The supplier a product owns: the given one, or one built from the name with the default RUC and phone. */
  function ToSupplier(info: SupplierInfo): (s: Supplier)
    ensures info.Given? ==> s == info.supplier
    ensures info.NameOnly? ==> s.nombre == info.name && s.ruc == DefaultRuc && s.telefono == DefaultTelefono
  {
    match info
    case Given(sup) => sup
    case NameOnly(n) => Supplier(n, DefaultRuc, DefaultTelefono)
  }

  /** An expiry date: a calendar day, or a day with a time of day (a `datetime`). */
  datatype Expiry = OnDay(day: int) | AtTime(day: int, secondOfDay: nat)

  /** The variants of products. `Plain` is the base `Producto` of the versions that instantiate it. */
  datatype Kind =
    | Plain
    | Nacional(region: string)
    | Importado(impuesto: real)
    | Perecible(vencimiento: Expiry)

  /** The date part of an expiry, as `fecha.date()` for a datetime. */
  function DayOf(e: Expiry): int
  {
    match e
    case OnDay(d) => d
    case AtTime(d, _) => d
  }

  /** `esta_vencido`: the expiry day is strictly before today. */
  predicate Expired(e: Expiry, today: int)
  {
    DayOf(e) < today
  }

  /** Only the date part counts: a datetime expires exactly when its calendar day does. */
  lemma ExpiredIgnoresTime(day: int, secondOfDay: nat, today: int)
    ensures Expired(AtTime(day, secondOfDay), today) == Expired(OnDay(day), today)
  {
  }

  /** A product is not expired on its own expiry day, and once expired it stays expired. */
  lemma ExpiredMonotone(e: Expiry, today: int, later: int)
    requires today <= later
    ensures !Expired(e, DayOf(e))
    ensures Expired(e, today) ==> Expired(e, later)
  {
  }

  /** `costo_con_impuesto`: the unit cost including the import tax. */
  function CostWithTax(costo: real, impuesto: real): (r: real)
    ensures costo >= 0.0 && impuesto >= 0.0 ==> r >= costo
    ensures impuesto == 0.0 ==> r == costo
  {
    costo * (1.0 + impuesto)
  }

  /**
   * The unit value used by the valuation: tax-inclusive for imported products,
   * the raw unit cost for every other kind (the valuation asks whether the
   * product has `costo_con_impuesto`, which only the imported class defines).
   */
  function UnitValue(kind: Kind, costo: real): (r: real)
    ensures kind.Importado? ==> r == CostWithTax(costo, kind.impuesto)
    ensures !kind.Importado? ==> r == costo
  {
    match kind
    case Importado(t) => CostWithTax(costo, t)
    case _ => costo
  }

  /** The stock status shown in the reports. */
  datatype Status = Bajo | Ok

  /**
   * `AlertaStockMinimo`, the one observer the ledgers attach. Its `actualizar`
   * deliberately does nothing: it is an extension point.
   */
  class StockMinimumAlert {
    constructor ()
    {
    }

    /** `actualizar`: no effect. */
    method Update(p: Product)
    {
    }
  }

  /** A new product with `alert` attached as its only observer, as registration does. */
  method NewWatched(codigo: string, nombre: string, categoria: string, stockMinimo: int,
                    proveedor: SupplierInfo, costo: real, kind: Kind, alert: StockMinimumAlert)
    returns (p: Product)
    ensures fresh(p)
    ensures p.codigo == codigo && p.nombre == nombre && p.categoria == categoria
    ensures p.stockMinimo == stockMinimo && p.proveedor == proveedor && p.costo == costo && p.kind == kind
    ensures p.stock == 0 && p.movements == [] && p.observers == [alert]
  {
    p := new Product(codigo, nombre, categoria, stockMinimo, proveedor, costo, kind);
    p.AddObserver(alert);
  }

  /**
   * `Producto`. The identifying and descriptive fields never change (`const`);
   * the current stock, the per-product movement list and the observer list are
   * updated in place.
   */
  class Product {
    const codigo: string
    const nombre: string
    const categoria: string
    const stockMinimo: int
    const proveedor: SupplierInfo
    const costo: real
    const kind: Kind
    var stock: int
    var movements: seq<Movement>
    var observers: seq<StockMinimumAlert>

    /** A new product starts with zero stock, no movements and no observers. */
    constructor (codigo: string, nombre: string, categoria: string, stockMinimo: int,
                 proveedor: SupplierInfo, costo: real, kind: Kind)
      ensures this.codigo == codigo && this.nombre == nombre && this.categoria == categoria
      ensures this.stockMinimo == stockMinimo && this.proveedor == proveedor
      ensures this.costo == costo && this.kind == kind
      ensures stock == 0 && movements == [] && observers == []
    {
      this.codigo := codigo;
      this.nombre := nombre;
      this.categoria := categoria;
      this.stockMinimo := stockMinimo;
      this.proveedor := proveedor;
      this.costo := costo;
      this.kind := kind;
      stock := 0;
      movements := [];
      observers := [];
    }

    /** `verificar_stock_minimo`: low means at or below the minimum, the minimum itself included. */
    predicate IsLow()
      reads this
    {
      stock <= stockMinimo
    }

    /** The status column of the reports: "BAJO" exactly when the product is low. */
    function StatusNow(): (s: Status)
      reads this
      ensures s == Bajo <==> stock <= stockMinimo
    {
      if IsLow() then Bajo else Ok
    }

    /**
     * `mostrar_alerta_stock`: the alert appears only when the product is low, and it
     * reports how many units are missing to reach the minimum, never a negative number.
     */
    function Shortfall(): (r: Option<int>)
      reads this
      ensures r.Some? <==> stock <= stockMinimo
      ensures r.Some? ==> r.value >= 0 && stock + r.value == stockMinimo
    {
      if IsLow() then Some(stockMinimo - stock) else None
    }

    /** `esta_vencido`, for a perishable product, with today's date supplied by the caller. */
    predicate IsExpired(today: int)
      requires kind.Perecible?
    {
      Expired(kind.vencimiento, today)
    }

    /** `agregar_observador`. */
    method AddObserver(o: StockMinimumAlert)
      modifies this
      ensures observers == old(observers) + [o]
      ensures stock == old(stock) && movements == old(movements)
    {
      observers := observers + [o];
    }

    /** `notificar_observadores`: calls `actualizar` on each observer, in order. */
    method NotifyObservers()
    {
      for i := 0 to |observers| {
        observers[i].Update(this);
      }
    }

    /**
     * `actualizar_stock`: adds `delta` (of either sign; there is no bound check
     * here) and then notifies the observers, which change nothing.
     */
    method UpdateStock(delta: int)
      modifies this
      ensures stock == old(stock) + delta
      ensures movements == old(movements) && observers == old(observers)
    {
      stock := stock + delta;
      NotifyObservers();
    }

    /** `agregar_movimiento`. */
    method AddMovement(m: Movement)
      modifies this
      ensures movements == old(movements) + [m]
      ensures stock == old(stock) && observers == old(observers)
    {
      movements := movements + [m];
    }
  }
}
