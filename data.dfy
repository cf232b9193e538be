/** The records a lockfile pins, and the lockfile itself as the differ sees it. */
module Data {

  /** One pinned artifact: its Maven coordinates and the checksum recorded for it.
      Equality is structural over all five fields, so two entries are the same set
      element only when coordinates, algorithm and digest all agree. */
  datatype Entry = Entry(
    groupId: string,
    artifactId: string,
    version: string,
    checksumAlgorithm: string,
    checksum: string)

  /** A library dependency and a build plugin have the same shape. */
  type DependencyNode = Entry
  type MavenPlugin = Entry

  /** A lockfile as handed to the differ: its dependency list and its plugin list. */
  datatype LockFile = LockFile(dependencies: seq<DependencyNode>, mavenPlugins: seq<MavenPlugin>)

  /** True when the two entries name the same artifact (group, artifact, version). */
  predicate SameCoordinates(a: Entry, b: Entry) {
    a.artifactId == b.artifactId && a.groupId == b.groupId && a.version == b.version
  }

  /** No two distinct entries of the list name the same artifact. */
  predicate UniqueCoordinates(s: seq<Entry>) {
    forall i, j :: 0 <= i < |s| && 0 <= j < |s| && SameCoordinates(s[i], s[j]) ==> s[i] == s[j]
  }

  /** No element occurs twice in the list. */
  predicate Distinct(s: seq<Entry>) {
    forall i, j :: 0 <= i < j < |s| ==> s[i] != s[j]
  }

  /** Copying a list into a hash set: the elements of the list, each once. */
  function ToSet(s: seq<Entry>): (r: set<Entry>) {
    set x | x in s
  }

  /** Copying into a set never grows the collection, and it keeps every element
      exactly when the list has no repeats: duplicates collapse. */
  lemma {:induction false} ToSetCardinality(s: seq<Entry>)
    ensures |ToSet(s)| <= |s|
    ensures |ToSet(s)| == |s| <==> Distinct(s)
  {
    if s == [] {
      assert ToSet(s) == {};
    } else {
      var rest := s[1..];
      ToSetCardinality(rest);
      if s[0] in rest {
        assert ToSet(s) == ToSet(rest);
        var k :| 0 <= k < |rest| && rest[k] == s[0];
        assert s[0] == s[k + 1];
        assert !Distinct(s);
      } else {
        assert ToSet(s) == {s[0]} + ToSet(rest);
        assert s[0] !in ToSet(rest);
        if Distinct(rest) {
          forall i, j | 0 <= i < j < |s| ensures s[i] != s[j] {
            if i > 0 {
              assert s[i] == rest[i - 1] && s[j] == rest[j - 1];
            } else {
              assert s[j] == rest[j - 1];
            }
          }
        } else {
          var i, j :| 0 <= i < j < |rest| && rest[i] == rest[j];
          assert s[i + 1] == s[j + 1];
        }
      }
    }
  }
}
