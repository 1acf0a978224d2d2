/**
 * The classifiers of otf2_test.py, a debugging copy of the converter: the
 * same handle naming and file filter, and a smaller set of tracked calls.
 */
module DebugClassifier {
  import opened Trace
  import Classifier

  const IgnoredPrefixes: set<string> :=
    {"/sys/", "/proc", "/etc/", "STDIN_FILENO", "STDOUT_FILENO", "STDERR_FILENO", "/cvmfs/"}

  /** The eight calls this copy tracks. */
  const IoOperations: set<string> :=
    {"read", "write", "fgets", "fread", "pread", "pwrite", "MPI_File_write_at_all", "MPI_File_read_at_all"}

  /** The name of the file a handle refers to, or else the handle's own name. */
  function FileName(h: IoHandle): (r: string)
    ensures r == h.name || (h.file.Some? && r == h.file.value)
    ensures h.file.Some? ==> r == h.file.value
  {
    match h.file
    case Some(f) => f
    case None => h.name
  }

  /** The configuration of this copy, in the terms of the converter's filter. */
  const Otf2Test: Classifier.Filter := Classifier.Filter(IgnoredPrefixes, IoOperations)

  /** Whether `f` starts with one of the ignored prefixes, as a literal string prefix. */
  predicate IgnoredFile(f: string): (r: bool)
    ensures r <==>
      || "/sys/" <= f || "/proc" <= f || "/etc/" <= f
      || "STDIN_FILENO" <= f || "STDOUT_FILENO" <= f || "STDERR_FILENO" <= f
      || "/cvmfs/" <= f
  {
    Otf2Test.Ignores(f)
  }

  /** Whether a region name is one of the eight tracked calls; each of them is a converter call too. */
  predicate IsIoOperation(name: string): (r: bool)
    ensures r ==> Classifier.IsIoOperation(name)
  {
    Otf2Test.Tracks(name)
  }

  /** Both copies name every handle alike. */
  lemma FileNameAgrees(h: IoHandle)
    ensures FileName(h) == Classifier.FileName(h)
  {
  }

  /** Both copies filter exactly the same file names. */
  lemma IgnoredFileAgrees(f: string)
    ensures IgnoredFile(f) <==> Classifier.IgnoredFile(f)
  {
    assert IgnoredPrefixes == Classifier.IgnoredPrefixes;
  }

  /** Exactly eight names are tracked here. */
  lemma IoOperationCount()
    ensures |IoOperations| == 8
  {
  }

  /** Every call tracked here is tracked by the converter as well. */
  lemma TrackedHereTrackedThere()
    ensures IoOperations <= Classifier.PosixOperations + Classifier.MpiOperations
    ensures forall name :: IsIoOperation(name) ==> Classifier.IsIoOperation(name)
  {
  }

  /** The converter tracks calls this copy does not, from both families. */
  lemma TrackedOnlyThere()
    ensures Classifier.IsIoOperation("fwrite") && !IsIoOperation("fwrite")
    ensures Classifier.IsIoOperation("pread64") && !IsIoOperation("pread64")
    ensures Classifier.IsIoOperation("MPI_File_iread") && !IsIoOperation("MPI_File_iread")
    ensures Classifier.IsIoOperation("MPI_File_write_ordered") && !IsIoOperation("MPI_File_write_ordered")
  {
  }
}
