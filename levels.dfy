/**
 * Severity levels of the logging facade and the order in which they are compared.
 */
module Levels {

  /**
   * The four severities Error, Warn, Info and Debug; the full variant list of
   * base_logging::Level is external, and this file's code uses only Info and Debug.
   */
  datatype Level = Error | Warn | Info | Debug

  /**
   * The order `<=` on `Level`, assumed to be the one Rust derives from the declaration
   * order of its variants. That declaration is external, so the order is a parameter of
   * the model: `rank` is the position each variant has in the declaration. Nothing
   * below assumes which of two levels comes first.
   */
  datatype Order = Order(rank: Level -> int)

  /** Distinct variants sit at distinct positions, as in any enumeration declaration. */
  ghost predicate Injective(o: Order) {
    forall a: Level, b: Level :: o.rank(a) == o.rank(b) ==> a == b
  }

  /** `a <= b` under the derived order. */
  predicate Le(o: Order, a: Level, b: Level) {
    o.rank(a) <= o.rank(b)
  }

  /** The derived order is a total order on the levels. */
  lemma LeIsTotalOrder(o: Order)
    requires Injective(o)
    ensures forall a :: Le(o, a, a)
    ensures forall a, b :: Le(o, a, b) && Le(o, b, a) ==> a == b
    ensures forall a, b, c :: Le(o, a, b) && Le(o, b, c) ==> Le(o, a, c)
    ensures forall a, b :: Le(o, a, b) || Le(o, b, a)
  {
  }
}
