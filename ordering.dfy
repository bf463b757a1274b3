/**
 * Rust's `std::cmp::Ordering`, and the ordering of `String`: byte-wise
 * lexicographic comparison of the UTF-8 encodings, which is the same as
 * comparing the code points in order, which is what is done here.
 */
module Orderings {

  datatype Ordering = Less | Equal | Greater {
    function Reverse(): Ordering
    {
      match this
      case Less => Greater
      case Equal => Equal
      case Greater => Less
    }
  }

  /** Lexicographic comparison of two strings; a proper prefix comes first. */
  function CompareStrings(a: string, b: string): Ordering
  {
    if a == [] then (if b == [] then Equal else Less)
    else if b == [] then Greater
    else if a[0] < b[0] then Less
    else if a[0] > b[0] then Greater
    else CompareStrings(a[1..], b[1..])
  }

  lemma {:induction false} CompareStringsEqual(a: string, b: string)
    ensures CompareStrings(a, b) == Equal <==> a == b
  {
    if a != [] && b != [] && a[0] == b[0] {
      CompareStringsEqual(a[1..], b[1..]);
      assert a == [a[0]] + a[1..] && b == [b[0]] + b[1..];
    }
  }

  lemma {:induction false} CompareStringsAntisymmetric(a: string, b: string)
    ensures CompareStrings(b, a) == CompareStrings(a, b).Reverse()
  {
    if a != [] && b != [] && a[0] == b[0] {
      CompareStringsAntisymmetric(a[1..], b[1..]);
    }
  }

  lemma {:induction false} CompareStringsTransitive(a: string, b: string, c: string)
    requires CompareStrings(a, b) == Less && CompareStrings(b, c) == Less
    ensures CompareStrings(a, c) == Less
  {
    if a != [] && b != [] && c != [] && a[0] == b[0] == c[0] {
      CompareStringsTransitive(a[1..], b[1..], c[1..]);
    }
  }

  /** `a <= b` on strings. */
  predicate StringLe(a: string, b: string) { CompareStrings(a, b) != Greater }

  /** String order is a total order: reflexive, antisymmetric, transitive and total. */
  lemma StringLeTotalOrder(a: string, b: string, c: string)
    ensures StringLe(a, a)
    ensures StringLe(a, b) && StringLe(b, a) ==> a == b
    ensures StringLe(a, b) && StringLe(b, c) ==> StringLe(a, c)
    ensures StringLe(a, b) || StringLe(b, a)
  {
    CompareStringsEqual(a, a);
    CompareStringsEqual(a, b);
    CompareStringsEqual(b, c);
    CompareStringsEqual(a, c);
    CompareStringsAntisymmetric(a, b);
    if CompareStrings(a, b) == Less && CompareStrings(b, c) == Less {
      CompareStringsTransitive(a, b, c);
    }
  }
}
