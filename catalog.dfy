/**
 * The bundled content catalog: a read-only ordered sequence of learning items.
 * Only the fields the modelled handlers read are kept.
 */
module Catalog {

  datatype Item = Item(
    id: int,
    category: string,
    writingChallenge: string,
    /** Whether the item carries `scenarioData`; its contents are only rendered. */
    hasScenario: bool)

  /** a can be obtained from b by deleting elements, so a keeps b's order. */
  predicate Subsequence<T(==)>(a: seq<T>, b: seq<T>)
    decreases |b|
  {
    a == [] || (b != [] && ((a[0] == b[0] && Subsequence(a[1..], b[1..])) || Subsequence(a, b[1..])))
  }

  /**
   * `content.filter(item => item.scenarioData)`: the items that carry a
   * scenario, each as often as in the catalog and in catalog order.
   */
  function Scenarios(catalog: seq<Item>): (r: seq<Item>)
    ensures |r| <= |catalog|
    ensures forall x :: x in r <==> x in catalog && x.hasScenario
    ensures forall x :: multiset(r)[x] == if x.hasScenario then multiset(catalog)[x] else 0
    ensures Subsequence(r, catalog)
  {
    if catalog == [] then []
    else
      assert catalog == [catalog[0]] + catalog[1..];
      if catalog[0].hasScenario then [catalog[0]] + Scenarios(catalog[1..])
      else Scenarios(catalog[1..])
  }
}
