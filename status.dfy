/** The range classes of src/fleet/status.rs. */
module FleetStatus {

  /** Declaration order is the derived ordering: None < Short < ... < VeryVeryLong. */
  datatype Range = None | Short | Medium | Long | VeryLong | VeryVeryLong

  /** The position of a range in declaration order, which is what the derived `Ord` compares. */
  function Rank(r: Range): (n: nat)
    ensures n <= 5
  {
    match r
    case None => 0
    case Short => 1
    case Medium => 2
    case Long => 3
    case VeryLong => 4
    case VeryVeryLong => 5
  }

  predicate Le(a: Range, b: Range) {
    Rank(a) <= Rank(b)
  }

  /** `std::cmp::max` under the derived order (on equal ranges the second is returned; they are equal). */
  function Max(a: Range, b: Range): (m: Range)
    ensures Le(a, m) && Le(b, m)
    ensures m == a || m == b
  {
    if Rank(b) >= Rank(a) then b else a
  }

  /** `#[default]` is None. */
  function Default(): (d: Range)
    ensures forall r :: Le(d, r)
  {
    Range.None
  }

  /** The Display text of each range. */
  function Label(r: Range): string {
    match r
    case None => "None"
    case Short => "Short"
    case Medium => "Medium"
    case Long => "Long"
    case VeryLong => "Very Long"
    case VeryVeryLong => "Very Very Long"
  }

  /** The derived order is a total order: Rank is injective, so Le is antisymmetric. */
  lemma RankInjective(a: Range, b: Range)
    ensures Rank(a) == Rank(b) <==> a == b
  {
  }

  lemma LeTotalOrder(a: Range, b: Range, c: Range)
    ensures Le(a, a)
    ensures Le(a, b) || Le(b, a)
    ensures Le(a, b) && Le(b, a) ==> a == b
    ensures Le(a, b) && Le(b, c) ==> Le(a, c)
  {
  }

  /** Different ranges print differently. */
  lemma LabelsDistinct(a: Range, b: Range)
    ensures a != b ==> Label(a) != Label(b)
  {
  }
}
