/** What the lockfile differ guarantees, and where the tamper test as written
    departs from the one it evidently means. */
module DiffProperties {
  import opened Data
  import opened Reporting

  /** Missing-in-project is exactly the file entries the project does not have;
      repeated list entries are reported once, since the result is a set. */
  lemma MissingInProjectExact(fromFile: LockFile, fromProject: LockFile)
    ensures forall x :: x in Difference(fromFile, fromProject).missingDependenciesInProject
                    <==> x in fromFile.dependencies && x !in fromProject.dependencies
    ensures forall x :: x in Difference(fromFile, fromProject).missingPluginsInProject
                    <==> x in fromFile.mavenPlugins && x !in fromProject.mavenPlugins
  {
  }

  /** Missing-in-file is exactly the project entries the file does not have. */
  lemma MissingInFileExact(fromFile: LockFile, fromProject: LockFile)
    ensures forall x :: x in Difference(fromFile, fromProject).missingDependenciesInFile
                    <==> x in fromProject.dependencies && x !in fromFile.dependencies
    ensures forall x :: x in Difference(fromFile, fromProject).missingPluginsInFile
                    <==> x in fromProject.mavenPlugins && x !in fromFile.mavenPlugins
  {
  }

  /** When both lockfiles hold the same entries of a kind (in any order, with any
      repetitions), nothing of that kind is missing on either side. */
  lemma SameEntriesNothingMissing(fromFile: LockFile, fromProject: LockFile)
    ensures ToSet(fromFile.dependencies) == ToSet(fromProject.dependencies) ==>
              Difference(fromFile, fromProject).missingDependenciesInProject == {} &&
              Difference(fromFile, fromProject).missingDependenciesInFile == {}
    ensures ToSet(fromFile.mavenPlugins) == ToSet(fromProject.mavenPlugins) ==>
              Difference(fromFile, fromProject).missingPluginsInProject == {} &&
              Difference(fromFile, fromProject).missingPluginsInFile == {}
  {
  }

  /** Swapping the two lockfiles swaps the two missing sets. */
  lemma MissingSymmetric(a: LockFile, b: LockFile)
    ensures Difference(a, b).missingDependenciesInProject == Difference(b, a).missingDependenciesInFile
    ensures Difference(a, b).missingDependenciesInFile == Difference(b, a).missingDependenciesInProject
    ensures Difference(a, b).missingPluginsInProject == Difference(b, a).missingPluginsInFile
    ensures Difference(a, b).missingPluginsInFile == Difference(b, a).missingPluginsInProject
  {
  }

  /** A file entry is reported tampered exactly when some project entry has its
      coordinates, has a checksum equal to the file entry's checksum ALGORITHM,
      and has a checksum different from the file entry's checksum. */
  lemma TamperedMembership(fromFile: LockFile, fromProject: LockFile)
    ensures forall a ::
              a in Difference(fromFile, fromProject).dependenciesWithInvalidChecksums <==>
              a in fromFile.dependencies &&
              exists b :: b in fromProject.dependencies && SameCoordinates(a, b) &&
                a.checksumAlgorithm == b.checksum && a.checksum != b.checksum
    ensures forall a ::
              a in Difference(fromFile, fromProject).pluginsWithInvalidChecksums <==>
              a in fromFile.mavenPlugins &&
              exists b :: b in fromProject.mavenPlugins && SameCoordinates(a, b) &&
                a.checksumAlgorithm == b.checksum && a.checksum != b.checksum
  {
    var d := Difference(fromFile, fromProject);
    forall a | a in d.dependenciesWithInvalidChecksums
      ensures exists b :: b in fromProject.dependencies && SameCoordinates(a, b) &&
                          a.checksumAlgorithm == b.checksum && a.checksum != b.checksum
    {
      var b :| b in ToSet(fromProject.dependencies) && IsTamperedWith(a, b);
    }
    forall a, b | a in fromFile.dependencies && b in fromProject.dependencies && SameCoordinates(a, b) &&
                  a.checksumAlgorithm == b.checksum && a.checksum != b.checksum
      ensures a in d.dependenciesWithInvalidChecksums
    {
      assert IsTamperedWith(a, b) && b in ToSet(fromProject.dependencies);
    }
    forall a | a in d.pluginsWithInvalidChecksums
      ensures exists b :: b in fromProject.mavenPlugins && SameCoordinates(a, b) &&
                          a.checksumAlgorithm == b.checksum && a.checksum != b.checksum
    {
      var b :| b in ToSet(fromProject.mavenPlugins) && IsTamperedWith(a, b);
    }
    forall a, b | a in fromFile.mavenPlugins && b in fromProject.mavenPlugins && SameCoordinates(a, b) &&
                  a.checksumAlgorithm == b.checksum && a.checksum != b.checksum
      ensures a in d.pluginsWithInvalidChecksums
    {
      assert IsTamperedWith(a, b) && b in ToSet(fromProject.mavenPlugins);
    }
  }

  /** Only file-side entries are ever reported tampered: an entry that only the
      project has never is. */
  lemma ProjectOnlyEntryNeverTampered(fromFile: LockFile, fromProject: LockFile, x: Entry)
    ensures x !in fromFile.dependencies ==>
              x !in Difference(fromFile, fromProject).dependenciesWithInvalidChecksums
    ensures x !in fromFile.mavenPlugins ==>
              x !in Difference(fromFile, fromProject).pluginsWithInvalidChecksums
  {
  }

  /** A file dependency that no project dependency shares coordinates with is
      never reported tampered. */
  lemma NoPartnerNeverTampered(fromFile: LockFile, fromProject: LockFile, a: Entry)
    requires forall b :: b in fromProject.dependencies ==> !SameCoordinates(a, b)
    ensures a !in Difference(fromFile, fromProject).dependenciesWithInvalidChecksums
  {
  }

  /** A file dependency whose checksum algorithm differs from the checksum of
      every project dependency with its coordinates is never reported tampered,
      however much the checksums differ. */
  lemma AlgorithmNotAChecksumNeverTampered(fromFile: LockFile, fromProject: LockFile, a: Entry)
    requires forall b :: b in fromProject.dependencies && SameCoordinates(a, b) ==> a.checksumAlgorithm != b.checksum
    ensures a !in Difference(fromFile, fromProject).dependenciesWithInvalidChecksums
  {
  }

  /** The dependency results depend only on the two dependency lists (as sets),
      never on the plugins; and the other way round. */
  lemma KindIsolation(file1: LockFile, project1: LockFile, file2: LockFile, project2: LockFile)
    ensures ToSet(file1.dependencies) == ToSet(file2.dependencies) &&
            ToSet(project1.dependencies) == ToSet(project2.dependencies) ==>
              var d1, d2 := Difference(file1, project1), Difference(file2, project2);
              d1.missingDependenciesInProject == d2.missingDependenciesInProject &&
              d1.missingDependenciesInFile == d2.missingDependenciesInFile &&
              d1.dependenciesWithInvalidChecksums == d2.dependenciesWithInvalidChecksums
    ensures ToSet(file1.mavenPlugins) == ToSet(file2.mavenPlugins) &&
            ToSet(project1.mavenPlugins) == ToSet(project2.mavenPlugins) ==>
              var d1, d2 := Difference(file1, project1), Difference(file2, project2);
              d1.missingPluginsInProject == d2.missingPluginsInProject &&
              d1.missingPluginsInFile == d2.missingPluginsInFile &&
              d1.pluginsWithInvalidChecksums == d2.pluginsWithInvalidChecksums
  {
  }

  /** The order and repetition of entries in either lockfile do not matter. */
  lemma OrderIrrelevant(file1: LockFile, project1: LockFile, file2: LockFile, project2: LockFile)
    requires ToSet(file1.dependencies) == ToSet(file2.dependencies)
    requires ToSet(project1.dependencies) == ToSet(project2.dependencies)
    requires ToSet(file1.mavenPlugins) == ToSet(file2.mavenPlugins)
    requires ToSet(project1.mavenPlugins) == ToSet(project2.mavenPlugins)
    ensures Difference(file1, project1) == Difference(file2, project2)
  {
    KindIsolation(file1, project1, file2, project2);
  }

  /** Plugins go through the same three rules as dependencies: the plugin results
      are what the dependency results would be if the plugin lists were the
      dependency lists. */
  lemma PluginsFollowDependencyRules(fromFile: LockFile, fromProject: LockFile)
    ensures var d := Difference(fromFile, fromProject);
            var asDeps := Difference(LockFile(fromFile.mavenPlugins, []), LockFile(fromProject.mavenPlugins, []));
            d.missingPluginsInProject == asDeps.missingDependenciesInProject &&
            d.missingPluginsInFile == asDeps.missingDependenciesInFile &&
            d.pluginsWithInvalidChecksums == asDeps.dependenciesWithInvalidChecksums
  {
  }

  /** An entry recorded identically on both sides is missing on neither side and,
      when the project names each artifact once, is not reported tampered. */
  lemma UnchangedEntryReportedNowhere(fromFile: LockFile, fromProject: LockFile, x: Entry)
    requires x in fromFile.dependencies && x in fromProject.dependencies
    requires UniqueCoordinates(fromProject.dependencies)
    ensures x !in Difference(fromFile, fromProject).missingDependenciesInProject
    ensures x !in Difference(fromFile, fromProject).missingDependenciesInFile
    ensures x !in Difference(fromFile, fromProject).dependenciesWithInvalidChecksums
  {
  }

  /** Diffing a lockfile against itself reports nothing, provided no artifact
      is listed twice with different records. */
  lemma SelfDiffEmpty(s: LockFile)
    requires UniqueCoordinates(s.dependencies) && UniqueCoordinates(s.mavenPlugins)
    ensures Difference(s, s) == LockFileDifference({}, {}, {}, {}, {}, {})
  {
  }

  /** Without unique coordinates, a lockfile can differ from itself: one artifact
      listed twice, where one record's checksum happens to equal the other's
      algorithm name, is reported tampered. */
  lemma SelfDiffWithRepeatedCoordinates()
    ensures var x := Entry("org.example", "lib", "1.0", "abc", "123");
            var y := Entry("org.example", "lib", "1.0", "SHA-256", "abc");
            var s := LockFile([x, y], []);
            x in Difference(s, s).dependenciesWithInvalidChecksums
  {
    var x := Entry("org.example", "lib", "1.0", "abc", "123");
    var y := Entry("org.example", "lib", "1.0", "SHA-256", "abc");
    var s := LockFile([x, y], []);
    assert IsTamperedWith(x, y);
    assert y in ToSet(s.dependencies);
  }

  /** An entry only the project has is reported missing in the file, and nothing else. */
  lemma PureAddition(x: Entry)
    ensures Difference(LockFile([], []), LockFile([x], [])) == LockFileDifference({}, {x}, {}, {}, {}, {})
  {
  }

  /** An entry only the file has is reported missing in the project, and nothing else. */
  lemma PureRemoval(x: Entry)
    ensures Difference(LockFile([x], []), LockFile([], [])) == LockFileDifference({x}, {}, {}, {}, {}, {})
  {
  }

  /** The tamper test as written misses a plain checksum change: the same artifact,
      recorded with SHA-256 digest "deadbeef" in the file and "facefeed" in the
      project, is not reported, because "SHA-256" is not the digest "facefeed". */
  lemma AsWrittenMissesChecksumChange()
    ensures var recorded := Entry("org.example", "lib", "1.0", "SHA-256", "deadbeef");
            var resolved := Entry("org.example", "lib", "1.0", "SHA-256", "facefeed");
            Difference(LockFile([recorded], []), LockFile([resolved], [])).dependenciesWithInvalidChecksums == {}
  {
  }

  /** With the intended test the same change is reported. */
  lemma IntendedDetectsChecksumChange()
    ensures var recorded := Entry("org.example", "lib", "1.0", "SHA-256", "deadbeef");
            var resolved := Entry("org.example", "lib", "1.0", "SHA-256", "facefeed");
            CorrectedDifference(LockFile([recorded], []), LockFile([resolved], [])).dependenciesWithInvalidChecksums == {recorded}
  {
    var recorded := Entry("org.example", "lib", "1.0", "SHA-256", "deadbeef");
    var resolved := Entry("org.example", "lib", "1.0", "SHA-256", "facefeed");
    assert IsTamperedWithIntended(recorded, resolved);
    assert ToSet([resolved]) == {resolved};
    assert ToSet([recorded]) == {recorded};
  }

  /** With the intended test, a file entry is reported tampered exactly when the
      project has an entry with its coordinates and checksum algorithm but a
      different checksum. */
  lemma IntendedTamperedMembership(fromFile: LockFile, fromProject: LockFile)
    ensures forall a ::
              a in CorrectedDifference(fromFile, fromProject).dependenciesWithInvalidChecksums <==>
              a in fromFile.dependencies &&
              exists b :: b in fromProject.dependencies && SameCoordinates(a, b) &&
                a.checksumAlgorithm == b.checksumAlgorithm && a.checksum != b.checksum
    ensures forall a ::
              a in CorrectedDifference(fromFile, fromProject).pluginsWithInvalidChecksums <==>
              a in fromFile.mavenPlugins &&
              exists b :: b in fromProject.mavenPlugins && SameCoordinates(a, b) &&
                a.checksumAlgorithm == b.checksumAlgorithm && a.checksum != b.checksum
  {
    var d := CorrectedDifference(fromFile, fromProject);
    forall a | a in d.dependenciesWithInvalidChecksums
      ensures exists b :: b in fromProject.dependencies && SameCoordinates(a, b) &&
                          a.checksumAlgorithm == b.checksumAlgorithm && a.checksum != b.checksum
    {
      var b :| b in ToSet(fromProject.dependencies) && IsTamperedWithIntended(a, b);
    }
    forall a, b | a in fromFile.dependencies && b in fromProject.dependencies && SameCoordinates(a, b) &&
                  a.checksumAlgorithm == b.checksumAlgorithm && a.checksum != b.checksum
      ensures a in d.dependenciesWithInvalidChecksums
    {
      assert IsTamperedWithIntended(a, b) && b in ToSet(fromProject.dependencies);
    }
    forall a | a in d.pluginsWithInvalidChecksums
      ensures exists b :: b in fromProject.mavenPlugins && SameCoordinates(a, b) &&
                          a.checksumAlgorithm == b.checksumAlgorithm && a.checksum != b.checksum
    {
      var b :| b in ToSet(fromProject.mavenPlugins) && IsTamperedWithIntended(a, b);
    }
    forall a, b | a in fromFile.mavenPlugins && b in fromProject.mavenPlugins && SameCoordinates(a, b) &&
                  a.checksumAlgorithm == b.checksumAlgorithm && a.checksum != b.checksum
      ensures a in d.pluginsWithInvalidChecksums
    {
      assert IsTamperedWithIntended(a, b) && b in ToSet(fromProject.mavenPlugins);
    }
  }

  /** The two tests flag the same pair only when the project record's algorithm
      name equals its own digest, which a well-formed record never has. */
  lemma AsWrittenAndIntendedAgreeOnlyOnDegenerateRecords(a: Entry, b: Entry)
    ensures IsTamperedWith(a, b) && IsTamperedWithIntended(a, b) ==> b.checksumAlgorithm == b.checksum
  {
  }

  /** When the project names each artifact once, an entry reported tampered by
      the intended test is also reported missing in the project, since its
      recorded checksum differs from the project's record. */
  lemma TamperedAlsoMissing(fromFile: LockFile, fromProject: LockFile, a: Entry)
    requires UniqueCoordinates(fromProject.dependencies)
    requires a in CorrectedDifference(fromFile, fromProject).dependenciesWithInvalidChecksums
    ensures a in CorrectedDifference(fromFile, fromProject).missingDependenciesInProject
  {
  }
}
