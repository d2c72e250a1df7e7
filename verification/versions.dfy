/**
 * Server versions, ordered the way `org.elasticsearch.Version` orders them:
 * each version has a numeric id built from its parts, and `onOrAfter`
 * compares ids.
 */
module Versions {

  datatype Version = Version(id: int) {

    /** `this.onOrAfter(other)`: this version is `other` or a later one. */
    predicate OnOrAfter(other: Version) {
      other.id <= id
    }

    predicate Before(other: Version) {
      id < other.id
    }
  }

  /** The id of a release: two decimal digits per part, and 99 for a final release build. */
  function ReleaseId(major: nat, minor: nat, revision: nat): int {
    major * 1_000_000 + minor * 10_000 + revision * 100 + 99
  }

  function Release(major: nat, minor: nat, revision: nat): Version {
    Version(ReleaseId(major, minor, revision))
  }

  /** The first release whose tables give every column an OID. */
  const V_5_5_0: Version := Release(5, 5, 0)

  /** Release numbers whose parts each fit the two digits the id reserves for them. */
  predicate Fits(minor: nat, revision: nat) {
    minor < 100 && revision < 100
  }

  /** Comparing release ids is comparing (major, minor, revision) lexicographically. */
  lemma ReleaseOrderIsLexicographic(major: nat, minor: nat, revision: nat, major': nat, minor': nat, revision': nat)
    requires Fits(minor, revision) && Fits(minor', revision')
    ensures Release(major, minor, revision).OnOrAfter(Release(major', minor', revision')) <==>
              major > major' || (major == major' && (minor > minor' || (minor == minor' && revision >= revision')))
  {
  }

  /** `OnOrAfter` is a total order and `Before` is its complement. */
  lemma OnOrAfterIsTotalOrder(a: Version, b: Version, c: Version)
    ensures a.OnOrAfter(a)
    ensures a.OnOrAfter(b) && b.OnOrAfter(a) ==> a == b
    ensures a.OnOrAfter(b) && b.OnOrAfter(c) ==> a.OnOrAfter(c)
    ensures a.OnOrAfter(b) || b.OnOrAfter(a)
    ensures a.Before(b) <==> !a.OnOrAfter(b)
  {
  }
}
