/**
 * Versions as the migration runner compares them. A version is the
 * sequence of its numeric components (major, minor, patch, ...); versions
 * are ordered component by component, and a proper prefix precedes every
 * extension of it. Parsing and formatting belong to the external version
 * library and appear in this model only as parameters.
 */
module Versions {

  type Version = seq<nat>

  /** The value of a default-constructed version, used when none is recorded. */
  const DefaultVersion: Version := [0, 0, 0]

  /** Strict precedence of versions. */
  predicate Less(a: Version, b: Version)
    decreases |a|
  {
    b != [] && (a == [] || a[0] < b[0] || (a[0] == b[0] && Less(a[1..], b[1..])))
  }

  predicate LessEq(a: Version, b: Version) {
    a == b || Less(a, b)
  }

  lemma {:induction false} LessIrreflexive(a: Version)
    ensures !Less(a, a)
    decreases |a|
  {
    if a != [] {
      LessIrreflexive(a[1..]);
    }
  }

  lemma {:induction false} LessTransitive(a: Version, b: Version, c: Version)
    requires Less(a, b) && Less(b, c)
    ensures Less(a, c)
    decreases |a|
  {
    if a != [] && a[0] == b[0] && b[0] == c[0] {
      LessTransitive(a[1..], b[1..], c[1..]);
    }
  }

  lemma {:induction false} LessTrichotomy(a: Version, b: Version)
    ensures Less(a, b) || a == b || Less(b, a)
    decreases |a|
  {
    if a != [] && b != [] && a[0] == b[0] {
      LessTrichotomy(a[1..], b[1..]);
      if a[1..] == b[1..] {
        assert a == [a[0]] + a[1..] && b == [b[0]] + b[1..];
      }
    }
  }

  lemma LessAsymmetric(a: Version, b: Version)
    requires Less(a, b)
    ensures !Less(b, a)
  {
    if Less(b, a) {
      LessTransitive(a, b, a);
      LessIrreflexive(a);
    }
  }

  /** "Not after" and "not before" are the two halves of the total order. */
  lemma NotLessIsLessEq(a: Version, b: Version)
    ensures !Less(b, a) <==> LessEq(a, b)
  {
    LessTrichotomy(a, b);
    LessIrreflexive(a);
    if Less(a, b) {
      LessAsymmetric(a, b);
    }
  }

  lemma LessEqTransitive(a: Version, b: Version, c: Version)
    requires LessEq(a, b) && LessEq(b, c)
    ensures LessEq(a, c)
  {
    if a != b && b != c {
      LessTransitive(a, b, c);
    }
  }
}
