# otf2csv correlation engine in Dafny

This project models the core of `otf2csv`, a converter from OTF2 traces to a
CSV table of I/O operations. It reads the trace's event stream once. For each
location group (an MPI rank) it keeps the I/O operation currently pending:

- the tracked POSIX or MPI-IO call last entered;
- the file, the start time and the requested size from the last begin event whose file is accepted;
- a running byte offset.

An accepted completion event then writes one row
`function, filename, rank, start, end, size, offset` and moves the offset
forward by the size.

Modules, one per file:

- `Common` (common.dfy): `Option` and `Result`.
- `Trace` (trace.dfy): the events the OTF2 reader yields, as datatypes (`LocatedEvent` is one `(location, event)` pair).
- `Text` (text.dfy): Python's `str.split()` (with the round trip `Split(Join(ws)) == ws`) and `str.lower()`.
- `Classifier` (classifier.dfy): `file_name`, `ignored_file` and `isIoOperation` of otf2csv.py.
  A `Filter` holds a set of ignored prefixes and a set of tracked calls; `Otf2Csv` is the one otf2csv.py is written with, and `IgnoredFile` and `IsIoOperation` are its two tests.
- `DebugClassifier` (debug_classifier.dfy): the same three functions in otf2_test.py, as the filter `Otf2Test`, compared with otf2csv.py's.
- `Correlation` (correlation.dfy): the engine.
  - `Step` (one event) and `Run` (a whole trace) are pure specification functions.
  - The engine takes the filter as a parameter. The per-event and whole-trace properties in `CorrelationProperties` hold for any filter, and in particular for `Classifier.Otf2Csv`; the worked examples are stated for `Classifier.Otf2Csv` only.
  - The class `Converter` holds the same state in fields and updates them in place, one method per event kind.
  - `ConvertTrace` is the loop of `otf2_to_csv`. It runs a `Converter` built with `Classifier.Otf2Csv` and is proved to produce exactly the rows and the exception that `Run` gives with that filter.
- `CorrelationProperties` (correlation_properties.dfy): the engine's guarantees, event by event and over whole traces.

The model keeps these points of the code's behaviour:

- The `rank` column is the third whitespace token of the group name, kept as a string. It is not converted to an integer.
- The prefix `/etc/` has a trailing slash, so `/etc2/x` is kept, not ignored. Of the path prefixes, only `/proc` has no trailing slash, so `/proc2/x` and `/procfoo` are ignored.
- A group name with fewer than three tokens, such as `Rank 0`, makes `split()[2]` raise `IndexError`. No row is written for it (`ShortGroupNameFails`). `SingleReadScenario` takes any group name with at least three tokens, such as `MPI Rank 0`.
- A completion that lacks a pending field raises `KeyError` for the first missing key. Keys are read in the order function, filename, start, size, offset. The exception ends the conversion, and the rows written before it remain. Both kinds of exception are values of `Failure`, and `Run` stops at the first one.

## Model

| member | source | states |
|---|---|---|
| Classifier.FileName | otf2csv.py:12-18 | the handle's file name when the handle has a file, and the handle's own name otherwise |
| Classifier.IgnoredFile | otf2csv.py:21-26 | a file name is ignored iff one of the seven literal prefixes is a string prefix of it |
| Classifier.IsIoOperation | otf2csv.py:29-41 | a region name is tracked iff it is one of the POSIX calls or one of the MPI-IO calls, and no name is in both families |
| Classifier.IgnoredFileExamples | otf2csv.py:21-26 | "/procfoo", "/proc2/x", "/sys/kernel", "STDOUT_FILENO" and a "/cvmfs/" path are ignored |
| Classifier.KeptFileExamples | otf2csv.py:21-26 | "/etc", "/sys", "/etc2/x" and "/data/f" are not ignored, because the match is literal and needs the trailing slash |
| Classifier.TrackedOperationCounts | otf2csv.py:29-41 | the tracked set is 9 POSIX names plus 22 MPI names, disjoint, 31 in all |
| Classifier.TrackedExamples | otf2csv.py:29-41 | "read", "pwrite64" and "MPI_File_write_shared" are tracked |
| Classifier.UntrackedExamples | otf2csv.py:29-41 | membership is exact and case-sensitive: "READ", "Read", "mpi_file_read_at", "open", "MPI_File_open" and "" are not tracked |
| DebugClassifier.FileName | otf2_test.py:11-17 | the handle's file name when the handle has a file, and its own name otherwise |
| DebugClassifier.IgnoredFile | otf2_test.py:20-25 | a file name is ignored iff one of the same seven literal prefixes is a string prefix of it |
| DebugClassifier.IsIoOperation | otf2_test.py:28-32 | every region name this copy tracks is also tracked by otf2csv.py |
| DebugClassifier.FileNameAgrees | otf2_test.py:11-17 | both copies of file_name agree on every handle |
| DebugClassifier.IgnoredFileAgrees | otf2_test.py:20-25 | both copies of ignored_file agree on every file name |
| DebugClassifier.IoOperationCount | otf2_test.py:28-32 | the debug copy tracks exactly 8 names |
| DebugClassifier.TrackedHereTrackedThere | otf2_test.py:29 | every name tracked by the debug copy is tracked by otf2csv.py |
| DebugClassifier.TrackedOnlyThere | otf2_test.py:29 | fwrite, pread64, MPI_File_iread and MPI_File_write_ordered are tracked by otf2csv.py only |
| Text.Split | otf2csv.py:111 | `split()` yields non-empty tokens without white space, whose concatenation is the input with its white space removed |
| Text.SplitJoin | otf2csv.py:111 | splitting words joined by single spaces gives the words back |
| Text.SplitInterleave | otf2csv.py:111 | for any words separated by non-empty runs of white space, with any white space (or none) before and after, `split()` gives exactly those words: the tokens are the maximal non-space runs |
| Correlation.Normalize | otf2csv.py:94 | the normalised time multiplied by the granularity 1000000 is the time since the program began |
| Text.ToLower | otf2csv.py:92 | lower-casing keeps the length and works position by position: each capital A-Z becomes its small letter, every other character is kept, and the result holds no capital |
| Correlation.LowerKeys | otf2csv.py:92 | every attribute's lower-cased name is a key of the attribute dictionary |
| Correlation.LowerKeysLastWins | otf2csv.py:90-92 | every key of the lower-cased attribute dictionary holds the value of the last attribute whose lower-cased name is that key |
| Correlation.OffsetAttribute | otf2csv.py:97-98 | an explicit offset is found whenever some attribute's name lower-cases to "offset" (the converse and its value: `OffsetAttributeIsLastOffset`) |
| Correlation.EnterRegion | otf2csv.py:70-77 | an untracked region changes nothing; a tracked one makes the region the group's pending function and leaves the group with an offset; rows, start time and other groups are untouched |
| Correlation.BeginOperation | otf2csv.py:85-98 | a begin on an empty or ignored file changes nothing; otherwise the group's pending file name and size are the event's and its pending function is kept; rows, start time and other groups are untouched |
| Correlation.CompleteOperation | otf2csv.py:100-113 | a completion on an empty or ignored file changes nothing; an exception names the completing group; a successful accepted completion appends exactly one row, keeps the earlier rows and leaves the group's offset at the row's offset plus its size; start time and other groups are untouched |
| Correlation.Step | otf2csv.py:66-115 | only completions can fail; a successful event appends at most one row and keeps the earlier rows, and only a completion on an accepted file can append one; only a program begin moves the start time; no other group's state changes |
| Correlation.Run | otf2csv.py:66-115 | rows are only appended; on a trace that raises nothing, the number of new rows equals the number of completions whose file is neither empty nor ignored |
| Correlation.Converter.constructor | otf2csv.py:54-58 | the conversion starts with the given filter, no group state, start time 0 and no rows |
| Correlation.Converter.Enter | otf2csv.py:70-77 | the in-place update leaves the state that `EnterRegion` gives |
| Correlation.Converter.Begin | otf2csv.py:85-98 | the in-place update leaves the state that `BeginOperation` gives |
| Correlation.Converter.Complete | otf2csv.py:100-113 | the in-place update leaves the state `CompleteOperation` gives, or returns its exception and changes nothing |
| Correlation.Converter.Process | otf2csv.py:66-115 | processing one event in place agrees with `Step`; an exception leaves the state unchanged |
| Correlation.ConvertTrace | otf2csv.py:54-115 | the loop writes exactly the rows of `Run` with otf2csv.py's filter from the initial state and returns its exception |
| CorrelationProperties.NonIoEventsOnlySetStartTime | otf2csv.py:67-68 | a program begin only replaces the start time; other event kinds change nothing |
| CorrelationProperties.EnterSetsFunctionAndFirstOffset | otf2csv.py:70-77 | a tracked enter sets the pending function and sets the offset to 0 only when the group has none, keeping an existing offset; an untracked enter changes nothing |
| CorrelationProperties.SkippedFilesChangeNothing | otf2csv.py:86-102 | begin and completion events on an empty or ignored file name leave state and rows unchanged |
| CorrelationProperties.LowerKeysOnlyNames | otf2csv.py:90-92 | every key of the attribute dictionary is some attribute's lower-cased name |
| CorrelationProperties.OffsetAttributeIsLastOffset | otf2csv.py:90-98 | an explicit offset exists iff some attribute name lower-cases to "offset", and it is the last such attribute's value |
| CorrelationProperties.OffsetNameIsCaseInsensitive | otf2csv.py:92 | "Offset" and "OFFSET" set the offset, a later one wins, and "size" does not |
| CorrelationProperties.AcceptedBeginRecordsPending | otf2csv.py:85-98 | an accepted begin records start, file and size, overrides the offset only with an "offset" attribute, keeps the function, and leaves other groups, rows and start time alone |
| CorrelationProperties.AcceptedCompletionFailures | otf2csv.py:100-111 | an accepted completion fails iff a pending field is missing or the group name has fewer than three tokens, with the first missing key |
| CorrelationProperties.AcceptedCompletionEmitsOneRow | otf2csv.py:100-113 | with all pending fields, one row of the stored function, begin's file name, third token, start, end, size and offset is appended, then the offset grows by the size and nothing is cleared |
| CorrelationProperties.RepeatedCompletionReusesPending | otf2csv.py:103-113 | since pending fields are not cleared, the same completion again emits the same operation at the advanced offset |
| CorrelationProperties.CompletionWithoutBeginFails | otf2csv.py:100-111 | an accepted completion on a group with no file name and no accepted begin of that group before it makes the run raise there: the outcome is that of the trace cut after the completion, the state is the one just before it, and when nothing earlier raised the exception is the KeyError for "function" or for "filename" of that group |
| CorrelationProperties.OrphanCompletionFails | otf2csv.py:100-111 | from the start of a trace, an accepted completion with no earlier accepted begin on its group makes the run raise at that completion instead of writing a row, with the rows written before it and, when nothing earlier raised, a KeyError |
| CorrelationProperties.StepKeepsFilesAccepted | otf2csv.py:86-113 | every event keeps all written and pending file names non-empty and not ignored |
| CorrelationProperties.IgnoredFilesNeverReported | otf2csv.py:86-111 | over any trace, written and pending file names stay non-empty and not ignored |
| CorrelationProperties.ReportedFilesAreKept | otf2csv.py:86-111 | no row of a conversion names an empty or ignored file |
| CorrelationProperties.StepNamesRank | otf2csv.py:100-111 | the row one event appends, if any, carries the third token of that event's group name as its rank |
| CorrelationProperties.RowsPerGroup | otf2csv.py:100-113 | on a trace that raises nothing, the rows each group writes are exactly as many as that group's completions on non-empty, non-ignored files, however the groups interleave |
| CorrelationProperties.StepAdvancesCursor | otf2csv.py:70-113 | without an offset attribute, an event of the group either keeps the cursor and writes nothing, or writes one row at the cursor and advances the cursor by that row's size |
| CorrelationProperties.WritersNameRanks | otf2csv.py:100-113 | each row a run appends carries the third token of its writer's group name as its rank, where the writer is the group whose completion appended it |
| CorrelationProperties.CursorAfterStep | otf2csv.py:70-113 | any event that is not a begin of `g` with an offset attribute, on any group, either writes a row for `g` at `g`'s cursor and moves the cursor past it, or leaves `g`'s cursor where it was |
| CorrelationProperties.OffsetsContiguous | otf2csv.py:76-113 | on any trace, with groups interleaved, the rows written by one group's completions are contiguous from that group's cursor when none of its begins has an offset attribute, even if the trace ends with an exception |
| CorrelationProperties.OffsetsFromZero | otf2csv.py:76-113 | from the start of any interleaved trace, the k-th row a group writes sits at the total size of that group's earlier rows: 0, s1, s1+s2, ... |
| CorrelationProperties.OverrideRestartsCursor | otf2csv.py:97-113 | after a begin of a group whose last "offset" attribute is v, the rows that group writes next continue v, v+s, ..., whatever other groups do in between |
| CorrelationProperties.RankToken | otf2csv.py:111 | "MPI Rank 3" splits into MPI, Rank, 3; "Rank 0" has only two tokens |
| CorrelationProperties.RankTokenOf | otf2csv.py:111 | "MPI Rank " followed by any one non-space character splits into MPI, Rank and that character |
| CorrelationProperties.RankTokenIrregularSpacing | otf2csv.py:111 | " MPI  Rank\t3\n" also splits into MPI, Rank, 3: runs of white space and leading or trailing white space yield no extra tokens |
| CorrelationProperties.ReadTracePending | otf2csv.py:66-98 | after program begin, enter "read" and an accepted begin 2 s later, the group's pending read is at start 2.0, offset 0 |
| CorrelationProperties.SingleReadScenario | otf2csv.py:66-113 | a read begun 2 s and completed 5 s after program begin yields exactly one row with start 2.0, end 5.0 and offset 0 |
| CorrelationProperties.ShortGroupNameFails | otf2csv.py:111 | the same trace on group "Rank 0" raises the index error and writes no row |

## Left out

- Opening and iterating the OTF2 trace, writing the CSV file (including the header row) and the command-line `main` of both files are I/O and library calls. A trace is a `seq<LocatedEvent>` and the output is a `seq<Row>`.
- The event loop of otf2_test.py's `otf2_to_csv` only dumps begin events to a file. It is not modelled.
- Python's attribute lookup on handles (`handle.file.name` and its `AttributeError` fallback) is modelled by an `Option` file name. A missing or empty handle name is the empty string, which the converter skips like any falsy name.
- Times are exact `real` quotients. IEEE float rounding of the division is not modelled.
- Attribute values are integers. Attributes of other value types are not modelled.
- Text.ToLower: lower-cases ASCII letters only, where Python's `str.lower()` uses full Unicode case mapping. Only the key "offset" is ever looked up.
- A row carries only the rank token, and several groups may share one. The offset lemmas therefore pick out a group's rows through `CorrelationProperties.Writers`, a specification function that records which group's completion appended each row. The converter keeps no such record.
- The empty stubs `handleIoOperation` and `handleMetaOperation` have no behaviour. Neither do the unused `region_set`, the commented-out `Leave` branch and the unused imports.
- setup.py is packaging metadata.
- The time of an enter event is not used by the converter, so it is not part of the `Enter` event here.
