/**
 * The classifiers of otf2csv.py: which file names are skipped, which
 * regions are tracked I/O operations, and how an I/O handle is named.
 */
module Classifier {
  import opened Trace

  /** Pseudo file systems, the standard streams and the CVMFS mount. */
  const IgnoredPrefixes: set<string> :=
    {"/sys/", "/proc", "/etc/", "STDIN_FILENO", "STDOUT_FILENO", "STDERR_FILENO", "/cvmfs/"}

  /** The POSIX calls that are tracked. */
  const PosixOperations: set<string> :=
    {"read", "write", "fgets", "fread", "fwrite", "pread", "pwrite", "pread64", "pwrite64"}

  /** The MPI-IO calls otf2csv.py tracks, grouped by kind. */
  const MpiNonblocking: set<string> :=
    {"MPI_File_iread", "MPI_File_iread_shared", "MPI_File_iread_at",
     "MPI_File_iwrite", "MPI_File_iwrite_shared", "MPI_File_iwrite_at"}
  const MpiCollectiveReads: set<string> :=
    {"MPI_File_read_all_begin", "MPI_File_read_all", "MPI_File_read_at",
     "MPI_File_read_at_all", "MPI_File_read_at_all_begin"}
  const MpiCollectiveWrites: set<string> :=
    {"MPI_File_write_all_begin", "MPI_File_write_all", "MPI_File_write_at",
     "MPI_File_write_at_all", "MPI_File_write_at_all_begin"}
  const MpiOrdered: set<string> :=
    {"MPI_File_read_ordered_begin", "MPI_File_read_ordered",
     "MPI_File_write_ordered_begin", "MPI_File_write_ordered"}
  const MpiShared: set<string> :=
    {"MPI_File_read_shared", "MPI_File_write_shared"}
  const MpiOperations: set<string> :=
    MpiNonblocking + MpiCollectiveReads + MpiCollectiveWrites + MpiOrdered + MpiShared

  /** The name of the file a handle refers to, or else the handle's own name. */
  function FileName(h: IoHandle): (r: string)
    ensures r == h.name || (h.file.Some? && r == h.file.value)
    ensures h.file.Some? ==> r == h.file.value
  {
    match h.file
    case Some(f) => f
    case None => h.name
  }

  /**
   * The configuration of a converter: the file-name prefixes it skips and the
   * region names it tracks as I/O calls.
   */
  datatype Filter = Filter(ignoredPrefixes: set<string>, operations: set<string>) {
    /** Whether `f` starts with one of the ignored prefixes (a literal string prefix, not a path component). */
    predicate Ignores(f: string) {
      exists p :: p in ignoredPrefixes && p <= f
    }

    /** Whether a region name is one of the tracked calls (case-sensitive, exact match). */
    predicate Tracks(name: string) {
      name in operations
    }

    /** A file name that is neither empty nor ignored: only events on such files are correlated. */
    predicate Accepts(f: string) {
      f != [] && !Ignores(f)
    }
  }

  /** The configuration otf2csv.py is written with: its ignored prefixes, its POSIX and MPI calls. */
  const Otf2Csv: Filter := Filter(IgnoredPrefixes, PosixOperations + MpiOperations)

  /**
   * Whether otf2csv.py skips the file name `f`: exactly when one of the seven
   * prefixes is a literal string prefix of it.
   */
  predicate IgnoredFile(f: string): (r: bool)
    ensures r <==>
      || "/sys/" <= f || "/proc" <= f || "/etc/" <= f
      || "STDIN_FILENO" <= f || "STDOUT_FILENO" <= f || "STDERR_FILENO" <= f
      || "/cvmfs/" <= f
  {
    Otf2Csv.Ignores(f)
  }

  /** Whether otf2csv.py tracks the region `name`: it is a POSIX call or an MPI call, never both. */
  predicate IsIoOperation(name: string): (r: bool)
    ensures r <==> name in PosixOperations || name in MpiOperations
    ensures !(name in PosixOperations && name in MpiOperations)
  {
    PosixMpiApart();
    Otf2Csv.Tracks(name)
  }

  /**
   * Prefix matching is literal: "/proc" covers "/procfoo" and "/proc2/x", and
   * the standard-stream sentinels and the CVMFS mount are skipped.
   */
  lemma IgnoredFileExamples()
    ensures IgnoredFile("/procfoo") && IgnoredFile("/proc2/x") && IgnoredFile("/sys/kernel")
    ensures IgnoredFile("STDOUT_FILENO") && IgnoredFile("/cvmfs/repo/lib.so")
  {
    assert "/proc" <= "/procfoo" && "/proc" <= "/proc2/x" && "/sys/" <= "/sys/kernel";
    assert "STDOUT_FILENO" <= "STDOUT_FILENO" && "/cvmfs/" <= "/cvmfs/repo/lib.so";
  }

  /** "/etc", "/sys" and "/etc2/x" lack the trailing slash of "/etc/" and "/sys/" and are kept. */
  lemma KeptFileExamples()
    ensures !IgnoredFile("/etc") && !IgnoredFile("/sys") && !IgnoredFile("/etc2/x")
    ensures !IgnoredFile("/data/f")
  {
    assert "/data/f"[1] == 'd';
    assert "/etc2/x"[4] != "/etc/"[4];
  }

  lemma PosixCount()
    ensures |PosixOperations| == 9
  {
  }

  lemma MpiGroupCounts()
    ensures |MpiNonblocking| == 6 && |MpiCollectiveReads| == 5 && |MpiCollectiveWrites| == 5
    ensures |MpiOrdered| == 4 && |MpiShared| == 2
  {
  }

  /** Only the nonblocking names contain "_File_i". */
  lemma NonblockingApart()
    ensures MpiNonblocking !! MpiCollectiveReads && MpiNonblocking !! MpiCollectiveWrites
    ensures MpiNonblocking !! MpiOrdered && MpiNonblocking !! MpiShared
  {
  }

  lemma CollectiveApart()
    ensures MpiCollectiveReads !! MpiCollectiveWrites && MpiCollectiveReads !! MpiOrdered
    ensures MpiCollectiveReads !! MpiShared && MpiCollectiveWrites !! MpiOrdered
    ensures MpiCollectiveWrites !! MpiShared && MpiOrdered !! MpiShared
  {
  }

  /** No POSIX name is an MPI-IO name. */
  lemma PosixMpiApart()
    ensures PosixOperations !! MpiOperations
  {
    PosixApartFromReads();
    PosixApartFromWrites();
  }

  lemma PosixApartFromReads()
    ensures PosixOperations !! MpiNonblocking && PosixOperations !! MpiCollectiveReads
  {
  }

  lemma PosixApartFromWrites()
    ensures PosixOperations !! MpiCollectiveWrites && PosixOperations !! MpiOrdered
    ensures PosixOperations !! MpiShared
  {
  }

  /** The size of a union of five pairwise disjoint sets. */
  lemma FiveDisjointCount(a: set<string>, b: set<string>, c: set<string>, d: set<string>, e: set<string>)
    requires a !! b && a !! c && a !! d && a !! e && b !! c && b !! d && b !! e && c !! d && c !! e && d !! e
    ensures |a + b + c + d + e| == |a| + |b| + |c| + |d| + |e|
  {
    assert |a + b| == |a| + |b|;
    assert |a + b + c| == |a + b| + |c|;
    assert |a + b + c + d| == |a + b + c| + |d|;
  }

  /** The size of a union of two disjoint sets. */
  lemma TwoDisjointCount(a: set<string>, b: set<string>)
    requires a !! b
    ensures |a + b| == |a| + |b|
  {
  }

  /**
   * The tracked set is nine POSIX names and twenty-two MPI names with no name
   * in both: thirty-one names in all.
   */
  lemma TrackedOperationCounts()
    ensures |PosixOperations| == 9 && |MpiOperations| == 22
    ensures PosixOperations !! MpiOperations
    ensures |PosixOperations + MpiOperations| == 31
  {
    PosixCount();
    MpiGroupCounts();
    NonblockingApart();
    CollectiveApart();
    FiveDisjointCount(MpiNonblocking, MpiCollectiveReads, MpiCollectiveWrites, MpiOrdered, MpiShared);
    PosixMpiApart();
    TwoDisjointCount(PosixOperations, MpiOperations);
  }

  /** A name in none of the groups is not tracked. */
  lemma Untracked(name: string)
    requires name !in PosixOperations && name !in MpiNonblocking && name !in MpiCollectiveReads
    requires name !in MpiCollectiveWrites && name !in MpiOrdered && name !in MpiShared
    ensures !IsIoOperation(name)
  {
  }

  /** The tracked names include calls from both families. */
  lemma TrackedExamples()
    ensures IsIoOperation("read") && IsIoOperation("pwrite64") && IsIoOperation("MPI_File_write_shared")
  {
    assert "read" in PosixOperations && "pwrite64" in PosixOperations;
    assert "MPI_File_write_shared" in MpiShared;
  }

  /** Membership is exact: other spellings and cases of tracked names are not tracked. */
  lemma UntrackedExamples()
    ensures !IsIoOperation("READ") && !IsIoOperation("Read") && !IsIoOperation("mpi_file_read_at")
    ensures !IsIoOperation("open") && !IsIoOperation("MPI_File_open") && !IsIoOperation("")
  {
    UpperCaseReadUntracked();
    CapitalisedReadUntracked();
    LowerCaseMpiUntracked();
    OpenUntracked();
    MpiOpenUntracked();
    EmptyNameUntracked();
  }

  /** "READ": case matters. */
  lemma UpperCaseReadUntracked()
    ensures !IsIoOperation("READ")
  {
    Untracked("READ");
  }

  /** "Read": case matters. */
  lemma CapitalisedReadUntracked()
    ensures !IsIoOperation("Read")
  {
    Untracked("Read");
  }

  /** "mpi_file_read_at": MPI names are matched with their capitals. */
  lemma LowerCaseMpiUntracked()
    ensures !IsIoOperation("mpi_file_read_at")
  {
    Untracked("mpi_file_read_at");
  }

  /** "open": opening a file is not an I/O operation here. */
  lemma OpenUntracked()
    ensures !IsIoOperation("open")
  {
    Untracked("open");
  }

  /** "MPI_File_open": neither is opening through MPI-IO. */
  lemma MpiOpenUntracked()
    ensures !IsIoOperation("MPI_File_open")
  {
    Untracked("MPI_File_open");
  }

  /** The empty name. */
  lemma EmptyNameUntracked()
    ensures !IsIoOperation("")
  {
    Untracked("");
  }
}
