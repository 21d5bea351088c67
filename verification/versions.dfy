/**
 * Runtime versions as (major, minor, patch) release triples, compared the way
 * `packaging.version` compares plain release numbers: lexicographically.
 */
module Versions {

  datatype Version = Version(major: nat, minor: nat, patch: nat) {
    /** The release tuple, as `packaging.version.Version.release` holds it. */
    function Release(): seq<nat> {
      [major, minor, patch]
    }
  }

  /** The thresholds the stable-diffusion helpers test the runtime against. */
  const V1_16_0 := Version(1, 16, 0)
  const V1_16_2 := Version(1, 16, 2)
  const V1_17_0 := Version(1, 17, 0)

  /** `a < b` on release triples. */
  predicate Less(a: Version, b: Version) {
    || a.major < b.major
    || (a.major == b.major && a.minor < b.minor)
    || (a.major == b.major && a.minor == b.minor && a.patch < b.patch)
  }

  predicate LessEq(a: Version, b: Version) {
    Less(a, b) || a == b
  }

  /** Reference ordering: Python's lexicographic comparison of equal-length tuples. */
  predicate TupleLess(a: seq<nat>, b: seq<nat>)
    requires |a| == |b|
    decreases |a|
  {
    if |a| == 0 then false
    else a[0] < b[0] || (a[0] == b[0] && TupleLess(a[1..], b[1..]))
  }

  /** The triple comparison is exactly the tuple comparison of the release numbers. */
  lemma LessIsTupleLess(a: Version, b: Version)
    ensures Less(a, b) <==> TupleLess(a.Release(), b.Release())
  {
    var ra, rb := a.Release(), b.Release();
    assert ra[1..][1..] == [a.patch] && rb[1..][1..] == [b.patch];
    assert TupleLess([a.patch], [b.patch]) == (a.patch < b.patch) by {
      assert [a.patch][1..] == [];
    }
    assert ra[1..] == [a.minor, a.patch] && rb[1..] == [b.minor, b.patch];
    assert TupleLess(ra[1..], rb[1..])
      == (a.minor < b.minor || (a.minor == b.minor && a.patch < b.patch));
  }

  /** Less is a strict total order, so every threshold test below is well defined. */
  lemma LessIsStrictTotalOrder(a: Version, b: Version, c: Version)
    ensures !Less(a, a)
    ensures Less(a, b) && Less(b, c) ==> Less(a, c)
    ensures Less(a, b) || a == b || Less(b, a)
    ensures !(Less(a, b) && Less(b, a))
  {
  }
}
