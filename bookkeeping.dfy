/**
 * The invariants that bind a ledger's catalog, its iteration order and its
 * global movement log, and the two steps that preserve them: inserting a new
 * product and appending a movement for an existing one.
 */
module Bookkeeping {
  import opened Movements
  import opened Products

  /** `order` lists every catalog code exactly once (the dictionary's insertion order). */
  predicate OrderMatches(order: seq<string>, products: map<string, Product>)
  {
    && (forall i :: 0 <= i < |order| ==> order[i] in products)
    && (forall c :: c in products ==> c in order)
    && (forall i, j :: 0 <= i < j < |order| ==> order[i] != order[j])
  }

  /** The products in the given order. */
  function CatalogOf(products: map<string, Product>, order: seq<string>): (ps: seq<Product>)
    requires forall i :: 0 <= i < |order| ==> order[i] in products
    ensures |ps| == |order|
    ensures forall i :: 0 <= i < |order| ==> ps[i] == products[order[i]]
  {
    seq(|order|, i requires 0 <= i < |order| && order[i] in products => products[order[i]])
  }

  /** Registering a fresh code at the end of the order keeps the order matching the catalog. */
  lemma OrderAfterInsert(order: seq<string>, products: map<string, Product>, c: string, p: Product)
    requires OrderMatches(order, products) && c !in products
    ensures OrderMatches(order + [c], products[c := p])
  {
  }

  /** Each product is stored under its own code, and every movement names a catalog product. */
  predicate CodesMatch(products: map<string, Product>, log: seq<Movement>)
  {
    && (forall c :: c in products ==> products[c].codigo == c)
    && (forall i :: 0 <= i < |log| ==> log[i].code in products)
  }

  /** Each product's stock is the sum of the logged quantities for its code. */
  ghost predicate StockFromLog(products: map<string, Product>, log: seq<Movement>)
    reads products.Values
  {
    forall c :: c in products ==> products[c].stock == SumQty(ForCode(log, c))
  }

  /**
   * Each product's own movement list is the global log projected onto its code,
   * and its stock is the sum of that list.
   */
  ghost predicate ListsFromLog(products: map<string, Product>, log: seq<Movement>)
    reads products.Values
  {
    forall c :: c in products ==>
      products[c].movements == ForCode(log, c) && products[c].stock == SumQty(products[c].movements)
  }

  /** Maintained per-product lists give the stock-from-log invariant. */
  lemma ListsGiveStock(products: map<string, Product>, log: seq<Movement>)
    requires ListsFromLog(products, log)
    ensures StockFromLog(products, log)
  {
  }

  /**
   * A new product with no stock and no movements, under a code the log never
   * mentions, keeps every invariant.
   */
  lemma AfterInsert(products: map<string, Product>, log: seq<Movement>, c: string, p: Product)
    requires CodesMatch(products, log) && c !in products
    requires p.codigo == c && p.stock == 0 && p.movements == []
    ensures CodesMatch(products[c := p], log)
    ensures StockFromLog(products, log) ==> StockFromLog(products[c := p], log)
    ensures ListsFromLog(products, log) ==> ListsFromLog(products[c := p], log)
  {
    ForCodeAbsent(log, c);
    var after := products[c := p];
    forall d | d in after && d != c ensures after[d] == products[d] {
    }
  }

  /** Logging a movement for a catalog product keeps every logged code in the catalog. */
  lemma CodesAfterAppend(products: map<string, Product>, log: seq<Movement>, m: Movement)
    requires CodesMatch(products, log) && m.code in products
    ensures CodesMatch(products, log + [m])
  {
    forall i | 0 <= i < |log + [m]| ensures (log + [m])[i].code in products {
      if i < |log| {
        assert (log + [m])[i] == log[i];
      }
    }
  }

  /**
   * After `m` is appended to the log and its quantity added to the stock of the
   * product it names, every product's stock is again the sum of its logged quantities.
   */
  lemma StockAfterAppend(products: map<string, Product>, log: seq<Movement>, m: Movement)
    requires m.code in products
    requires forall c :: c in products && c != m.code ==> products[c].stock == SumQty(ForCode(log, c))
    requires products[m.code].stock == SumQty(ForCode(log, m.code)) + m.cantidad
    ensures StockFromLog(products, log + [m])
  {
    forall c | c in products ensures products[c].stock == SumQty(ForCode(log + [m], c)) {
      ForCodeAppend(log, m, c);
      if c == m.code {
        SumQtyConcat(ForCode(log, c), [m]);
        assert [m][..0] == [];
      } else {
        assert ForCode(log, c) + [] == ForCode(log, c);
      }
    }
  }

  /** The same step when the product also appends `m` to its own movement list. */
  lemma ListsAfterAppend(products: map<string, Product>, log: seq<Movement>, m: Movement)
    requires m.code in products
    requires forall c :: c in products && c != m.code ==>
      products[c].movements == ForCode(log, c) && products[c].stock == SumQty(products[c].movements)
    requires products[m.code].movements == ForCode(log, m.code) + [m]
    requires products[m.code].stock == SumQty(ForCode(log, m.code)) + m.cantidad
    ensures ListsFromLog(products, log + [m])
  {
    forall c | c in products
      ensures products[c].movements == ForCode(log + [m], c)
      ensures products[c].stock == SumQty(products[c].movements)
    {
      ForCodeAppend(log, m, c);
      if c == m.code {
        SumQtyConcat(ForCode(log, c), [m]);
      }
    }
  }
}
