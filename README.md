# Lockfile differ of maven-lockfile, in Dafny

maven-lockfile records, for a Maven project, every resolved dependency and
build plugin with its coordinates (groupId, artifactId, version) and a
checksum of its content. To check a build, it computes a fresh lockfile from
the project and compares it with the one on disk. That comparison is
`LockFileDifference.diff`, and it is what this project models.

For dependencies and, separately, for plugins, `diff` produces three sets:

- missing in project: entries of the file that the project does not have;
- missing in file: entries of the project that the file does not have;
- tampered ("with invalid checksums"): file entries that have a project
  partner with the same coordinates, whose checksum equals the file entry's
  checksum algorithm name, and whose checksum differs from the file entry's.
  The partner is found by a nested loop over both sets. Because of the middle
  condition, a plain checksum change is not reported (see "## Findings").

Files:

- `data.dfy` (module `Data`): the record `Entry` (used as both
  `DependencyNode` and `MavenPlugin`), the `LockFile` as two lists, and
  `ToSet`, the copy of a list into a hash set.
- `reporting.dfy` (module `Reporting`): the result `LockFileDifference`, the
  tamper test as written (`IsTamperedWith`) and as intended
  (`IsTamperedWithIntended`), the tampered filter `Tampered`, the nested loop
  `GetTampered`, the diff as a function (`Difference`, and `CorrectedDifference`
  with the intended test), and `Diff`, which computes the diff step by step as
  the source does.
- `properties.dfy` (module `DiffProperties`): what the differ guarantees, and
  how the tamper test as written departs from the intended one.

Entries are compared by value over all five fields. This assumes that the
`equals` of `DependencyNode` and `MavenPlugin` compares exactly these fields.
Those classes are not part of this model.

The tamper test is modelled as the code writes it. It compares the file
side's checksum algorithm with the project side's checksum (lines 74 and 95).
The evident intent is "same algorithm, different checksum". One would also
expect that diffing a lockfile against itself reports nothing, which the code
guarantees only when no artifact is listed twice with different records. The
model follows the code on both points:

- `Difference` and `Diff` use the test as written.
- `CorrectedDifference` uses the intended test. All its other parts are the
  same as in `Difference`.
- A self-diff is proved empty only when no artifact is listed twice with
  different records (`SelfDiffEmpty`). `SelfDiffWithRepeatedCoordinates`
  shows a lockfile that is reported as differing from itself: one artifact is
  listed twice, and one record's checksum equals the other's algorithm name.

## Model

| member | source | states |
|---|---|---|
| `Data.ToSetCardinality` | maven_plugin/src/main/java/io/github/chains_project/maven_lockfile/reporting/LockFileDifference.java:39-40 | copying a list into a hash set never adds elements, and it keeps all of them exactly when the list has no repeats (duplicates collapse) |
| `Reporting.Tampered` | maven_plugin/src/main/java/io/github/chains_project/maven_lockfile/reporting/LockFileDifference.java:57-68 | what the tamper loop collects lies within the file-side set |
| `Reporting.GetTampered` | maven_plugin/src/main/java/io/github/chains_project/maven_lockfile/reporting/LockFileDifference.java:57-89 | the nested loop, in any iteration order, returns exactly the file-side entries with at least one project-side entry that the pairwise test flags; only file-side entries are ever added |
| `Reporting.Difference` | maven_plugin/src/main/java/io/github/chains_project/maven_lockfile/reporting/LockFileDifference.java:38-55 | per kind, the two missing sets are disjoint and the tampered set lies within the file's entries |
| `Reporting.CorrectedDifference` | maven_plugin/src/main/java/io/github/chains_project/maven_lockfile/reporting/LockFileDifference.java:70-97 | the diff with the intended tamper test keeps the same disjointness and containment |
| `Reporting.Diff` | maven_plugin/src/main/java/io/github/chains_project/maven_lockfile/reporting/LockFileDifference.java:38-55 | the step-by-step computation (set copies, two set differences and one tamper loop per kind) yields exactly `Difference` of the two lockfiles |
| `DiffProperties.MissingInProjectExact` | maven_plugin/src/main/java/io/github/chains_project/maven_lockfile/reporting/LockFileDifference.java:39-42 | an entry is missing in the project iff it is listed in the file and not in the project, for dependencies and for plugins |
| `DiffProperties.MissingInFileExact` | maven_plugin/src/main/java/io/github/chains_project/maven_lockfile/reporting/LockFileDifference.java:39-43 | an entry is missing in the file iff it is listed in the project and not in the file |
| `DiffProperties.SameEntriesNothingMissing` | maven_plugin/src/main/java/io/github/chains_project/maven_lockfile/reporting/LockFileDifference.java:41-43 | when both lockfiles hold the same entries of a kind, in any order and with any repeats, both missing sets of that kind are empty |
| `DiffProperties.MissingSymmetric` | maven_plugin/src/main/java/io/github/chains_project/maven_lockfile/reporting/LockFileDifference.java:41-49 | swapping the two lockfiles swaps missing-in-project and missing-in-file |
| `DiffProperties.TamperedMembership` | maven_plugin/src/main/java/io/github/chains_project/maven_lockfile/reporting/LockFileDifference.java:60-76 | a file entry is tampered iff some project entry has its coordinates, a checksum equal to the file entry's algorithm, and a checksum different from the file entry's, for both kinds |
| `DiffProperties.ProjectOnlyEntryNeverTampered` | maven_plugin/src/main/java/io/github/chains_project/maven_lockfile/reporting/LockFileDifference.java:57-68 | an entry not listed in the file is never reported tampered |
| `DiffProperties.NoPartnerNeverTampered` | maven_plugin/src/main/java/io/github/chains_project/maven_lockfile/reporting/LockFileDifference.java:70-73 | a file dependency with no project dependency of the same coordinates is never tampered |
| `DiffProperties.AlgorithmNotAChecksumNeverTampered` | maven_plugin/src/main/java/io/github/chains_project/maven_lockfile/reporting/LockFileDifference.java:70-75 | a file dependency whose algorithm differs from the checksum of every same-coordinates project dependency is never tampered |
| `DiffProperties.KindIsolation` | maven_plugin/src/main/java/io/github/chains_project/maven_lockfile/reporting/LockFileDifference.java:46-50 | dependency results depend only on the two dependency lists, plugin results only on the two plugin lists |
| `DiffProperties.OrderIrrelevant` | maven_plugin/src/main/java/io/github/chains_project/maven_lockfile/reporting/LockFileDifference.java:39-50 | two pairs of lockfiles with the same entries per kind, in any order, have the same diff |
| `DiffProperties.PluginsFollowDependencyRules` | maven_plugin/src/main/java/io/github/chains_project/maven_lockfile/reporting/LockFileDifference.java:78-97 | the plugin results equal the dependency results computed from the plugin lists |
| `DiffProperties.UnchangedEntryReportedNowhere` | maven_plugin/src/main/java/io/github/chains_project/maven_lockfile/reporting/LockFileDifference.java:41-76 | an entry identical on both sides is missing on neither side, and is not tampered when the project lists each artifact once |
| `DiffProperties.SelfDiffEmpty` | maven_plugin/src/main/java/io/github/chains_project/maven_lockfile/reporting/LockFileDifference.java:38-55 | a lockfile with unique coordinates diffed against itself gives six empty sets |
| `DiffProperties.SelfDiffWithRepeatedCoordinates` | maven_plugin/src/main/java/io/github/chains_project/maven_lockfile/reporting/LockFileDifference.java:57-76 | with one artifact listed twice with different records, where one record's checksum equals the other's algorithm name, a lockfile diffed against itself reports a tampered entry |
| `DiffProperties.PureAddition` | maven_plugin/src/main/java/io/github/chains_project/maven_lockfile/reporting/LockFileDifference.java:38-55 | an empty file against a project with one dependency reports just that dependency, as missing in the file |
| `DiffProperties.PureRemoval` | maven_plugin/src/main/java/io/github/chains_project/maven_lockfile/reporting/LockFileDifference.java:38-55 | a file with one dependency against an empty project reports just that dependency, as missing in the project |
| `DiffProperties.AsWrittenMissesChecksumChange` | maven_plugin/src/main/java/io/github/chains_project/maven_lockfile/reporting/LockFileDifference.java:74 | the same artifact with SHA-256 digest deadbeef in the file and facefeed in the project is not reported tampered |
| `DiffProperties.IntendedDetectsChecksumChange` | maven_plugin/src/main/java/io/github/chains_project/maven_lockfile/reporting/LockFileDifference.java:70-76 | with the intended test that change is reported, and only the file-side record |
| `DiffProperties.IntendedTamperedMembership` | maven_plugin/src/main/java/io/github/chains_project/maven_lockfile/reporting/LockFileDifference.java:57-97 | with the intended test, a file entry is tampered iff a project entry has its coordinates and algorithm and a different checksum |
| `DiffProperties.AsWrittenAndIntendedAgreeOnlyOnDegenerateRecords` | maven_plugin/src/main/java/io/github/chains_project/maven_lockfile/reporting/LockFileDifference.java:91-96 | both tests flag the same pair only when the project record's algorithm name equals its own digest |
| `DiffProperties.TamperedAlsoMissing` | maven_plugin/src/main/java/io/github/chains_project/maven_lockfile/reporting/LockFileDifference.java:41-76 | when the project lists each artifact once, an entry the intended test flags is also missing in the project |

## Findings

| source | as written | input that shows it | evidently intended | confidence | as-written member | corrected member |
|---|---|---|---|---|---|---|
| maven_plugin/src/main/java/io/github/chains_project/maven_lockfile/reporting/LockFileDifference.java:74 | the tamper test compares the file record's checksum algorithm with the project record's checksum (line 95 does the same for plugins) | file `org.example:lib:1.0` with SHA-256 `deadbeef`, project `org.example:lib:1.0` with SHA-256 `facefeed`: nothing is reported tampered | compare algorithm with algorithm, so that a changed checksum is reported | high; not executed | `DiffProperties.AsWrittenMissesChecksumChange` | `DiffProperties.IntendedDetectsChecksumChange` |

## Left out

- The six getters (lines 99-134) return a fresh `HashSet` copy of a field. In
  the model the result is an immutable value, so reading a field is already a
  copy, and no caller can change the stored sets through it.
- The private constructor (lines 22-35) is the datatype constructor
  `LockFileDifference`.
- Guava's `Sets.difference` returns a live view. It is modelled as plain set
  difference, because its backing sets are local and never change afterwards.
- Reading and writing lockfiles, and `LockFile.getDependencies()` /
  `getMavenPlugins()`. The inputs are taken as lists of records.
- The fields, graph structure, `equals` and `hashCode` of `DependencyNode` and
  `MavenPlugin`. Both are a plain five-field record with value equality.
- The order in which a `HashSet` yields its elements. The loop picks an
  arbitrary remaining element, so its result is proved for every order.
- Report rendering and the build-failure policy that uses the result.
- Null fields. The `.equals` chains (lines 71-75, 92-96) run left to right
  and stop at the first false condition. A null file-side field they reach
  throws a NullPointerException. A null project-side artifactId, groupId,
  version or checksum they reach makes the test false. The project side's
  checksumAlgorithm is never read. The model takes every field as non-null.
