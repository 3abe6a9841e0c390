/**
 * The vocabulary shared by every copy of the rent-fairness rule in the front end:
 * the comparison class each copy assigns, and the badge colour each class is shown in.
 */
module Comparison {

  /** The `comparisonClass` strings 'neutral', 'overpriced' and 'fair'. */
  datatype ComparisonClass = Neutral | Overpriced | Fair

  /** The three badge treatments: green, red and the gray fallback. */
  datatype BadgeStyle = Green | Red | Gray

  /**
   * The conditional class list of the comparison badge: 'fair' is green,
   * 'overpriced' is red, and every other class falls through to gray.
   */
  function Badge(cls: ComparisonClass): (s: BadgeStyle)
    ensures s == Green <==> cls == Fair
    ensures s == Red <==> cls == Overpriced
    ensures s == Gray <==> !(cls == Fair || cls == Overpriced)
  {
    if cls == Fair then Green
    else if cls == Overpriced then Red
    else Gray
  }
}
