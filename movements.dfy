/**
 * Stock movements (`Movimiento`) and the pure computations over a movement log:
 * the sum of quantities, the projection onto one product code, and the history
 * filter `obtener_historial_movimientos`.
 */
module Movements {
  import opened Wrappers
  import opened Seqs

  /**
   * One stock change. `code` is the code of the affected product (the source keeps
   * a reference to the product object; codes are unique and never change, so the
   * code identifies it). `cantidad` is signed: positive for inbound, negative for
   * outbound. `fecha` is a timestamp supplied by the caller.
   */
  datatype Movement = Movement(tipo: string, code: string, cantidad: int, fecha: int, usuario: string)

  /** The operator recorded when none is given. */
  const SystemUser: string := "Sistema"

  /** The movement kind of an inbound with the given reason (`f"ingreso_{tipo_ingreso}"`). */
  function InboundTipo(reason: string): (t: string)
    ensures |t| == 8 + |reason| && t[..8] == "ingreso_" && t[8..] == reason
  {
    "ingreso_" + reason
  }

  /** The movement kind of an outbound with the given reason (`f"salida_{tipo_salida}"`). */
  function OutboundTipo(reason: string): (t: string)
    ensures |t| == 7 + |reason| && t[..7] == "salida_" && t[7..] == reason
  {
    "salida_" + reason
  }

  /** Inbound and outbound kinds never coincide, whatever the reasons. */
  lemma InboundOutboundDistinct(r1: string, r2: string)
    ensures InboundTipo(r1) != OutboundTipo(r2)
  {
    assert InboundTipo(r1)[0] == 'i';
    assert OutboundTipo(r2)[0] == 's';
  }

  /** The sum of the signed quantities of `ms`. */
  function SumQty(ms: seq<Movement>): int
    decreases |ms|
  {
    if ms == [] then 0 else SumQty(ms[..|ms| - 1]) + ms[|ms| - 1].cantidad
  }

  lemma {:induction false} SumQtyConcat(a: seq<Movement>, b: seq<Movement>)
    ensures SumQty(a + b) == SumQty(a) + SumQty(b)
    decreases |b|
  {
    if b == [] {
      assert a + b == a;
    } else {
      assert (a + b)[..|a + b| - 1] == a + b[..|b| - 1];
      SumQtyConcat(a, b[..|b| - 1]);
    }
  }

  /** Every quantity in `ms` is non-negative. */
  predicate AllNonNegative(ms: seq<Movement>)
  {
    forall i :: 0 <= i < |ms| ==> ms[i].cantidad >= 0
  }

  /** A log of non-negative quantities never sums below zero. */
  lemma {:induction false} SumQtyNonNegative(ms: seq<Movement>)
    requires AllNonNegative(ms)
    ensures SumQty(ms) >= 0
    decreases |ms|
  {
    if ms != [] {
      SumQtyNonNegative(ms[..|ms| - 1]);
    }
  }

  /** The movements of `log` that concern product `c`, in log order. */
  function ForCode(log: seq<Movement>, c: string): seq<Movement>
  {
    Filter(log, (m: Movement) => m.code == c)
  }

  /** Appending a movement extends the projection of its own code and no other. */
  lemma ForCodeAppend(log: seq<Movement>, m: Movement, c: string)
    ensures ForCode(log + [m], c) == ForCode(log, c) + (if m.code == c then [m] else [])
  {
    assert (log + [m])[..|log + [m]| - 1] == log;
  }

  /** A code no movement mentions has an empty projection. */
  lemma {:induction false} ForCodeAbsent(log: seq<Movement>, c: string)
    requires forall i :: 0 <= i < |log| ==> log[i].code != c
    ensures ForCode(log, c) == []
    decreases |log|
  {
    if log != [] {
      ForCodeAbsent(log[..|log| - 1], c);
    }
  }

  // The three stages of the history filter, each of which holds trivially
  // when its argument is absent (or, for the code, falsy: the empty string).

  predicate CodeOk(m: Movement, code: Option<string>)
  {
    code.None? || code.value == "" || m.code == code.value
  }

  predicate FromOk(m: Movement, from: Option<int>)
  {
    from.None? || m.fecha >= from.value
  }

  predicate ToOk(m: Movement, to: Option<int>)
  {
    to.None? || m.fecha <= to.value
  }

  /** A movement passes the history filter when it passes all three stages. */
  predicate Passes(m: Movement, code: Option<string>, from: Option<int>, to: Option<int>)
  {
    CodeOk(m, code) && FromOk(m, from) && ToOk(m, to)
  }

  /** The code stage: applied only when the code is truthy (present and non-empty). */
  function ByCode(log: seq<Movement>, code: Option<string>): seq<Movement>
  {
    if code.Some? && code.value != "" then Filter(log, (m: Movement) => m.code == code.value) else log
  }

  /** The lower-date stage, inclusive. */
  function Since(ms: seq<Movement>, from: Option<int>): seq<Movement>
  {
    if from.Some? then Filter(ms, (m: Movement) => m.fecha >= from.value) else ms
  }

  /** The upper-date stage, inclusive. */
  function Until(ms: seq<Movement>, to: Option<int>): seq<Movement>
  {
    if to.Some? then Filter(ms, (m: Movement) => m.fecha <= to.value) else ms
  }

  /** `obtener_historial_movimientos`: the code, then the lower-date, then the upper-date stage. */
  function History(log: seq<Movement>, code: Option<string>, from: Option<int>, to: Option<int>): seq<Movement>
  {
    Until(Since(ByCode(log, code), from), to)
  }

  lemma ByCodeIsFilter(log: seq<Movement>, code: Option<string>, f: Movement -> bool)
    requires forall m :: f(m) == CodeOk(m, code)
    ensures ByCode(log, code) == Filter(log, f)
  {
    if code.Some? && code.value != "" {
      FilterCongruent(log, (m: Movement) => m.code == code.value, f);
    } else {
      FilterKeepsAll(log, f);
    }
  }

  lemma SinceIsFilter(ms: seq<Movement>, from: Option<int>, f: Movement -> bool)
    requires forall m :: f(m) == FromOk(m, from)
    ensures Since(ms, from) == Filter(ms, f)
  {
    if from.Some? {
      FilterCongruent(ms, (m: Movement) => m.fecha >= from.value, f);
    } else {
      FilterKeepsAll(ms, f);
    }
  }

  lemma UntilIsFilter(ms: seq<Movement>, to: Option<int>, f: Movement -> bool)
    requires forall m :: f(m) == ToOk(m, to)
    ensures Until(ms, to) == Filter(ms, f)
  {
    if to.Some? {
      FilterCongruent(ms, (m: Movement) => m.fecha <= to.value, f);
    } else {
      FilterKeepsAll(ms, f);
    }
  }

  /** The staged filter is one order-preserving filter by the conjunction of the stages. */
  lemma HistoryIsOneFilter(log: seq<Movement>, code: Option<string>, from: Option<int>, to: Option<int>,
                           f: Movement -> bool)
    requires forall m :: f(m) == Passes(m, code, from, to)
    ensures History(log, code, from, to) == Filter(log, f)
  {
    var f1 := (m: Movement) => CodeOk(m, code);
    var f2 := (m: Movement) => FromOk(m, from);
    var f3 := (m: Movement) => ToOk(m, to);
    var f12 := (m: Movement) => CodeOk(m, code) && FromOk(m, from);
    var byCode := ByCode(log, code);
    ByCodeIsFilter(log, code, f1);
    SinceIsFilter(byCode, from, f2);
    UntilIsFilter(Since(byCode, from), to, f3);
    FilterTwice(log, f1, f2, f12);
    FilterTwice(log, f12, f3, f);
  }

  /**
   * A movement is in the history exactly when it is in the log and passes every
   * active filter; every movement returned passes them.
   */
  lemma HistoryMembership(log: seq<Movement>, code: Option<string>, from: Option<int>, to: Option<int>, m: Movement)
    ensures m in History(log, code, from, to) <==> m in log && Passes(m, code, from, to)
    ensures forall i :: 0 <= i < |History(log, code, from, to)| ==>
      Passes(History(log, code, from, to)[i], code, from, to)
  {
    var f := (m: Movement) => Passes(m, code, from, to);
    HistoryIsOneFilter(log, code, from, to, f);
    FilterMembership(log, f, m);
    FilterAllSatisfy(log, f);
  }

  /** `HistoryMembership` for every movement at once. */
  lemma HistoryMembershipAll(log: seq<Movement>, code: Option<string>, from: Option<int>, to: Option<int>)
    ensures forall m :: m in History(log, code, from, to) <==> m in log && Passes(m, code, from, to)
    ensures |History(log, code, from, to)| <= |log|
  {
    forall m ensures m in History(log, code, from, to) <==> m in log && Passes(m, code, from, to) {
      HistoryMembership(log, code, from, to, m);
    }
  }

  /** With no filter, or with only a falsy code, the whole log comes back in order. */
  lemma HistoryUnfiltered(log: seq<Movement>)
    ensures History(log, None, None, None) == log
    ensures History(log, Some(""), None, None) == log
  {
  }

  /** Filtering by a (non-empty) code is exactly the projection of the log onto it. */
  lemma HistoryOfCode(log: seq<Movement>, c: string)
    requires c != ""
    ensures History(log, Some(c), None, None) == ForCode(log, c)
  {
    FilterCongruent(log, (m: Movement) => m.code == c, (m: Movement) => m.code == c);
  }
}
