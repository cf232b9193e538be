/** The lockfile differ: compares the lockfile recorded on disk with the one
    computed from the project, separately for dependencies and for plugins. */
module Reporting {
  import opened Data

  /** The result of a diff: three sets for dependencies, three for plugins.
      It is an immutable value, so reading a field is already a copy that no
      caller can use to change the result. */
  datatype LockFileDifference = LockFileDifference(
    missingDependenciesInProject: set<DependencyNode>,
    missingDependenciesInFile: set<DependencyNode>,
    dependenciesWithInvalidChecksums: set<DependencyNode>,
    missingPluginsInProject: set<MavenPlugin>,
    missingPluginsInFile: set<MavenPlugin>,
    pluginsWithInvalidChecksums: set<MavenPlugin>)

  /** The tamper test as the code writes it, for dependencies and plugins alike:
      same coordinates, the file side's checksum ALGORITHM equal to the project
      side's CHECKSUM, and different checksums. */
  predicate IsTamperedWith(fromFile: Entry, fromProject: Entry) {
    fromFile.artifactId == fromProject.artifactId &&
    fromFile.groupId == fromProject.groupId &&
    fromFile.version == fromProject.version &&
    fromFile.checksumAlgorithm == fromProject.checksum &&
    fromFile.checksum != fromProject.checksum
  }

  /** The tamper test the code evidently means: same coordinates, same checksum
      algorithm, different checksums. */
  predicate IsTamperedWithIntended(fromFile: Entry, fromProject: Entry) {
    SameCoordinates(fromFile, fromProject) &&
    fromFile.checksumAlgorithm == fromProject.checksumAlgorithm &&
    fromFile.checksum != fromProject.checksum
  }

  /** Some project-side entry makes `fromFile` tampered under `tamperedWith`. */
  predicate HasTamperPartner(fromFile: Entry, fromProject: set<Entry>, tamperedWith: (Entry, Entry) -> bool) {
    exists b :: b in fromProject && tamperedWith(fromFile, b)
  }

  /** What the nested loop over the file side and the project side collects:
      each file-side entry that has at least one partner it is tampered with. */
  function Tampered(fromFile: set<Entry>, fromProject: set<Entry>, tamperedWith: (Entry, Entry) -> bool): (r: set<Entry>)
    ensures r <= fromFile
  {
    set a | a in fromFile && HasTamperPartner(a, fromProject, tamperedWith)
  }

  /** The result of `diff` on two lockfiles, with the tamper test as written. */
  function Difference(fromFile: LockFile, fromProject: LockFile): (d: LockFileDifference)
    ensures d.missingDependenciesInProject !! d.missingDependenciesInFile
    ensures d.missingPluginsInProject !! d.missingPluginsInFile
    ensures d.dependenciesWithInvalidChecksums <= ToSet(fromFile.dependencies)
    ensures d.pluginsWithInvalidChecksums <= ToSet(fromFile.mavenPlugins)
  {
    DifferenceUnder(fromFile, fromProject, IsTamperedWith)
  }

  /** The result of `diff` with the intended tamper test. */
  function CorrectedDifference(fromFile: LockFile, fromProject: LockFile): (d: LockFileDifference)
    ensures d.missingDependenciesInProject !! d.missingDependenciesInFile
    ensures d.missingPluginsInProject !! d.missingPluginsInFile
    ensures d.dependenciesWithInvalidChecksums <= ToSet(fromFile.dependencies)
    ensures d.pluginsWithInvalidChecksums <= ToSet(fromFile.mavenPlugins)
  {
    DifferenceUnder(fromFile, fromProject, IsTamperedWithIntended)
  }

  /** The diff, for a given pairwise tamper test: each kind is copied into sets,
      the two missing sets are the two set differences, and the tampered set is
      the filter over the cross product. */
  function DifferenceUnder(fromFile: LockFile, fromProject: LockFile, tamperedWith: (Entry, Entry) -> bool): (d: LockFileDifference) {
    var dependenciesFromFile := ToSet(fromFile.dependencies);
    var dependenciesFromProject := ToSet(fromProject.dependencies);
    var pluginsFromFile := ToSet(fromFile.mavenPlugins);
    var pluginsFromProject := ToSet(fromProject.mavenPlugins);
    LockFileDifference(
      dependenciesFromFile - dependenciesFromProject,
      dependenciesFromProject - dependenciesFromFile,
      Tampered(dependenciesFromFile, dependenciesFromProject, tamperedWith),
      pluginsFromFile - pluginsFromProject,
      pluginsFromProject - pluginsFromFile,
      Tampered(pluginsFromFile, pluginsFromProject, tamperedWith))
  }

  /** Adding one more file-side entry to the processed part adds it to the
      tampered set exactly when it has a partner. */
  lemma TamperedAddFileEntry(done: set<Entry>, a: Entry, fromProject: set<Entry>, tamperedWith: (Entry, Entry) -> bool)
    ensures Tampered(done + {a}, fromProject, tamperedWith)
         == Tampered(done, fromProject, tamperedWith) + Tampered({a}, fromProject, tamperedWith)
  {
  }

  /** Looking at one more project-side partner for a single file-side entry. */
  lemma TamperedAddPartner(a: Entry, seen: set<Entry>, b: Entry, tamperedWith: (Entry, Entry) -> bool)
    ensures Tampered({a}, seen + {b}, tamperedWith)
         == Tampered({a}, seen, tamperedWith) + (if tamperedWith(a, b) then {a} else {})
  {
  }

  /** The nested loop of `getTamperedDependencies` / `getTamperedPlugins`: every
      file-side entry against every project-side entry, in whatever order the
      hash sets yield them, adding the file-side entry on each hit. */
  method GetTampered(fromFile: set<Entry>, fromProject: set<Entry>, tamperedWith: (Entry, Entry) -> bool)
    returns (tampered: set<Entry>)
    ensures tampered <= fromFile
    ensures forall a :: a in tampered <==> a in fromFile && exists b :: b in fromProject && tamperedWith(a, b)
  {
    tampered := {};
    var fileTodo := fromFile;
    while fileTodo != {}
      invariant fileTodo <= fromFile
      invariant tampered == Tampered(fromFile - fileTodo, fromProject, tamperedWith)
      decreases fileTodo
    {
      var entryFromFile :| entryFromFile in fileTodo;
      ghost var done := fromFile - fileTodo;
      var projectTodo := fromProject;
      while projectTodo != {}
        invariant projectTodo <= fromProject
        invariant tampered == Tampered(done, fromProject, tamperedWith)
                            + Tampered({entryFromFile}, fromProject - projectTodo, tamperedWith)
        decreases projectTodo
      {
        var entryFromProject :| entryFromProject in projectTodo;
        TamperedAddPartner(entryFromFile, fromProject - projectTodo, entryFromProject, tamperedWith);
        assert fromProject - (projectTodo - {entryFromProject})
            == (fromProject - projectTodo) + {entryFromProject};
        if tamperedWith(entryFromFile, entryFromProject) {
          tampered := tampered + {entryFromFile};
        }
        projectTodo := projectTodo - {entryFromProject};
      }
      assert fromProject - projectTodo == fromProject;
      TamperedAddFileEntry(done, entryFromFile, fromProject, tamperedWith);
      assert fromFile - (fileTodo - {entryFromFile}) == done + {entryFromFile};
      fileTodo := fileTodo - {entryFromFile};
    }
    assert fromFile - fileTodo == fromFile;
  }

  /** `diff`: copy each kind of each lockfile into a set, take the two set
      differences per kind and run the tamper loop per kind. */
  method Diff(lockFileFromFile: LockFile, lockFileFromProject: LockFile) returns (d: LockFileDifference)
    ensures d == Difference(lockFileFromFile, lockFileFromProject)
  {
    var dependenciesFromFile := ToSet(lockFileFromFile.dependencies);
    var dependenciesFromProject := ToSet(lockFileFromProject.dependencies);
    var missingDependenciesInProject := dependenciesFromFile - dependenciesFromProject;
    var missingDependenciesInFile := dependenciesFromProject - dependenciesFromFile;
    var dependenciesWithInvalidChecksums := GetTampered(dependenciesFromFile, dependenciesFromProject, IsTamperedWith);
    var pluginsFromFile := ToSet(lockFileFromFile.mavenPlugins);
    var pluginsFromProject := ToSet(lockFileFromProject.mavenPlugins);
    var missingPluginsInProject := pluginsFromFile - pluginsFromProject;
    var missingPluginsInFile := pluginsFromProject - pluginsFromFile;
    var pluginsWithInvalidChecksums := GetTampered(pluginsFromFile, pluginsFromProject, IsTamperedWith);
    d := LockFileDifference(
      missingDependenciesInProject, missingDependenciesInFile, dependenciesWithInvalidChecksums,
      missingPluginsInProject, missingPluginsInFile, pluginsWithInvalidChecksums);
  }
}
