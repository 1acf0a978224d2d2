/**
 * What the correlation engine of otf2csv.py guarantees, event by event and
 * over whole traces.
 */
module CorrelationProperties {
  import opened Common
  import opened Trace
  import opened Text
  import opened Classifier
  import opened Correlation

  // ---------------------------------------------------------------------------
  // One event at a time
  // ---------------------------------------------------------------------------

  /** A program begin only moves the time origin; events of other kinds change nothing. */
  lemma NonIoEventsOnlySetStartTime(flt: Filter, s: Engine, le: LocatedEvent)
    requires le.event.ProgramBegin? || le.event.OtherEvent?
    ensures le.event.ProgramBegin? ==> Step(flt, s, le) == Ok(s.(startTime := le.event.time))
    ensures le.event.OtherEvent? ==> Step(flt, s, le) == Ok(s)
  {
  }

  /**
   * Entering a tracked call makes it the group's pending function and sets
   * the offset to 0 only if the group has none, so a running offset is never
   * reset; nothing else changes. Entering any other region changes nothing.
   */
  lemma EnterSetsFunctionAndFirstOffset(flt: Filter, s: Engine, le: LocatedEvent)
    requires le.event.Enter?
    ensures Step(flt, s, le).Ok?
    ensures !flt.Tracks(le.event.region) ==> Step(flt, s, le) == Ok(s)
    ensures flt.Tracks(le.event.region) ==>
      var before := Lookup(s.rankStat, le.location.groupName);
      var s' := Step(flt, s, le).value;
      var after := Lookup(s'.rankStat, le.location.groupName);
      && after.func == Some(le.event.region)
      && after.offset == Some(before.offset.GetOr(0))
      && (before.offset.Some? ==> after.offset == before.offset)
      && after.filename == before.filename && after.start == before.start && after.size == before.size
      && s'.rows == s.rows && s'.startTime == s.startTime
  {
  }

  /** Begin and completion events on an empty or ignored file name leave the whole state as it was. */
  lemma SkippedFilesChangeNothing(flt: Filter, s: Engine, le: LocatedEvent)
    requires le.event.IoOperationBegin? || le.event.IoOperationComplete?
    requires FileName(le.event.handle) == [] || flt.Ignores(FileName(le.event.handle))
    ensures Step(flt, s, le) == Ok(s)
  {
  }

  /** A key that is in the attribute dictionary is some attribute's lower-cased name. */
  lemma {:induction false} LowerKeysOnlyNames(attrs: seq<Attribute>, key: string)
    requires key in LowerKeys(attrs)
    ensures exists i :: 0 <= i < |attrs| && ToLower(attrs[i].name) == key
  {
    LowerKeysLastWins(attrs, key);
  }

  /** At most one attribute is the last with a given lower-cased name. */
  lemma LastNamedUnique(attrs: seq<Attribute>, i: int, j: int, key: string)
    requires LastNamed(attrs, i, key) && LastNamed(attrs, j, key)
    ensures i == j
  {
  }

  /**
   * The explicit offset of a begin event: present exactly when some attribute
   * name lower-cases to "offset", and then the value of the last such attribute.
   */
  lemma {:induction false} OffsetAttributeIsLastOffset(attrs: seq<Attribute>)
    ensures OffsetAttribute(attrs).Some? <==> exists i :: 0 <= i < |attrs| && ToLower(attrs[i].name) == "offset"
    ensures forall i :: LastNamed(attrs, i, "offset") ==> OffsetAttribute(attrs) == Some(attrs[i].value)
  {
    if "offset" in LowerKeys(attrs) {
      LowerKeysLastWins(attrs, "offset");
      var j :| LastNamed(attrs, j, "offset") && LowerKeys(attrs)["offset"] == attrs[j].value;
      forall i | LastNamed(attrs, i, "offset")
        ensures OffsetAttribute(attrs) == Some(attrs[i].value)
      {
        LastNamedUnique(attrs, i, j, "offset");
      }
    }
  }

  /** Attribute names are compared after lower-casing: "Offset" and "OFFSET" both set the offset. */
  lemma OffsetNameIsCaseInsensitive(v: int, w: int)
    ensures OffsetAttribute([Attribute("Offset", v)]) == Some(v)
    ensures OffsetAttribute([Attribute("OFFSET", v), Attribute("offset", w)]) == Some(w)
    ensures OffsetAttribute([Attribute("size", v)]) == None
  {
    assert ToLower("Offset") == "offset";
    assert ToLower("OFFSET") == "offset";
    assert ToLower("offset") == "offset";
    assert ToLower("size") == "size";
    OffsetAttributeIsLastOffset([Attribute("size", v)]);
  }

  /**
   * An accepted begin event records the normalised start time, the file name
   * and the requested size for its group, overwrites the offset only when an
   * attribute is named "offset" (in any case) and keeps the pending function;
   * other groups and the rows are untouched.
   */
  lemma AcceptedBeginRecordsPending(flt: Filter, s: Engine, le: LocatedEvent)
    requires le.event.IoOperationBegin? && flt.Accepts(FileName(le.event.handle))
    ensures Step(flt, s, le).Ok?
    ensures
      var e := le.event;
      var before := Lookup(s.rankStat, le.location.groupName);
      var s' := Step(flt, s, le).value;
      var after := Lookup(s'.rankStat, le.location.groupName);
      && after.start == Some(Normalize(e.time, s.startTime))
      && after.filename == Some(FileName(e.handle))
      && after.size == Some(e.bytesRequest)
      && after.func == before.func
      && ((forall i :: 0 <= i < |e.attributes| ==> ToLower(e.attributes[i].name) != "offset") ==>
            after.offset == before.offset)
      && (forall i :: LastNamed(e.attributes, i, "offset") ==> after.offset == Some(e.attributes[i].value))
      && s'.rows == s.rows && s'.startTime == s.startTime
      && (forall g :: g != le.location.groupName ==> Lookup(s'.rankStat, g) == Lookup(s.rankStat, g))
  {
    OffsetAttributeIsLastOffset(le.event.attributes);
  }

  /** The pending fields of a group are complete: a completion can be serviced. */
  predicate Pending(st: RankState) {
    st.func.Some? && st.filename.Some? && st.start.Some? && st.size.Some? && st.offset.Some?
  }

  /**
   * An accepted completion fails exactly when its group lacks a pending field
   * or its group name has fewer than three tokens. It fails with the first
   * missing key in the order function, filename, start, size, offset, and a
   * failure leaves no row behind.
   */
  lemma AcceptedCompletionFailures(flt: Filter, s: Engine, le: LocatedEvent)
    requires AcceptedCompletion(flt, le)
    ensures
      var g := le.location.groupName;
      var st := Lookup(s.rankStat, g);
      var r := Step(flt, s, le);
      && (r.Err? <==> !Pending(st) || |Split(g)| < 3)
      && (st.func.None? ==> r == Err(MissingKey(g, "function")))
      && (st.func.Some? && st.filename.None? ==> r == Err(MissingKey(g, "filename")))
      && (st.func.Some? && st.filename.Some? && st.start.None? ==> r == Err(MissingKey(g, "start")))
      && (st.func.Some? && st.filename.Some? && st.start.Some? && st.size.None? ==>
            r == Err(MissingKey(g, "size")))
      && (st.func.Some? && st.filename.Some? && st.start.Some? && st.size.Some? && st.offset.None? ==>
            r == Err(MissingKey(g, "offset")))
      && (Pending(st) && |Split(g)| < 3 ==> r == Err(RankIndexError(g)))
  {
    assert Step(flt, s, le) == CompleteOperation(flt, s, le.location.groupName, le.event.time, le.event.handle);
  }

  /**
   * An accepted completion on a group with all pending fields appends one row
   * built from them (the file name recorded at the begin, not the
   * completion's) with the running offset, then advances the offset by the
   * size and clears nothing.
   */
  lemma AcceptedCompletionEmitsOneRow(flt: Filter, s: Engine, le: LocatedEvent)
    requires AcceptedCompletion(flt, le)
    requires Pending(Lookup(s.rankStat, le.location.groupName)) && |Split(le.location.groupName)| >= 3
    ensures Step(flt, s, le).Ok?
    ensures
      var g := le.location.groupName;
      var st := Lookup(s.rankStat, g);
      var s' := Step(flt, s, le).value;
      && s'.rows == s.rows + [Row(st.func.value, st.filename.value, Split(g)[2], st.start.value,
                                  Normalize(le.event.time, s.startTime), st.size.value, st.offset.value)]
      && Lookup(s'.rankStat, g) == st.(offset := Some(st.offset.value + st.size.value))
      && s'.startTime == s.startTime
  {
    assert Step(flt, s, le) == CompleteOperation(flt, s, le.location.groupName, le.event.time, le.event.handle);
  }

  /**
   * Pending fields are not cleared by a completion: the same completion seen
   * again emits the same operation once more, at the advanced offset.
   */
  lemma RepeatedCompletionReusesPending(flt: Filter, s: Engine, le: LocatedEvent)
    requires AcceptedCompletion(flt, le) && Step(flt, s, le).Ok?
    ensures
      var s1 := Step(flt, s, le).value;
      && |s1.rows| == |s.rows| + 1
      && Step(flt, s1, le).Ok?
      && var s2 := Step(flt, s1, le).value;
      && |s2.rows| == |s1.rows| + 1
      && var first := s1.rows[|s.rows|];
      && s2.rows[|s1.rows|] == first.(offset := first.offset + first.size)
  {
    AcceptedCompletionFailures(flt, s, le);
    AcceptedCompletionEmitsOneRow(flt, s, le);
    var s1 := Step(flt, s, le).value;
    assert Pending(Lookup(s1.rankStat, le.location.groupName));
    AcceptedCompletionEmitsOneRow(flt, s1, le);
  }

  // ---------------------------------------------------------------------------
  // Whole traces
  // ---------------------------------------------------------------------------

  /** A begin on `g` that is not skipped. */
  predicate AcceptedBegin(flt: Filter, le: LocatedEvent, g: string) {
    le.location.groupName == g && le.event.IoOperationBegin? && flt.Accepts(FileName(le.event.handle))
  }

  /** Only an accepted begin on `g` gives `g` a file name. */
  lemma StepKeepsFileNameAbsent(flt: Filter, s: Engine, le: LocatedEvent, g: string)
    requires Lookup(s.rankStat, g).filename.None? && !AcceptedBegin(flt, le, g) && Step(flt, s, le).Ok?
    ensures Lookup(Step(flt, s, le).value.rankStat, g).filename.None?
  {
  }

  /**
   * A trace in which an accepted completion on `g` comes before any accepted
   * begin on `g` stops with an exception at or before that completion: no row
   * is made up for it, the events after it are never processed, and if
   * nothing raised earlier the exception is the KeyError for "function" or
   * "filename" on `g`.
   */
  lemma {:induction false} CompletionWithoutBeginFails(flt: Filter, s: Engine, events: seq<LocatedEvent>, k: nat, g: string)
    requires k < |events|
    requires Lookup(s.rankStat, g).filename.None?
    requires events[k].location.groupName == g && AcceptedCompletion(flt, events[k])
    requires forall i :: 0 <= i < k ==> !AcceptedBegin(flt, events[i], g)
    ensures Run(flt, s, events).failure.Some?
    ensures Run(flt, s, events) == Run(flt, s, events[..k + 1])
    ensures Run(flt, s, events).engine == Run(flt, s, events[..k]).engine
    ensures Run(flt, s, events[..k]).failure.None? ==>
      Run(flt, s, events).failure in {Some(MissingKey(g, "function")), Some(MissingKey(g, "filename"))}
    decreases k
  {
    assert events[..k + 1][0] == events[0];
    if k == 0 {
      AcceptedCompletionFailures(flt, s, events[0]);
      var f := Step(flt, s, events[0]).error;
      RunErr(flt, s, events, f);
      RunErr(flt, s, events[..1], f);
      assert events[..0] == [];
    } else {
      assert events[..k][0] == events[0];
      match Step(flt, s, events[0])
      case Err(f) =>
        RunErr(flt, s, events, f);
        RunErr(flt, s, events[..k + 1], f);
        RunErr(flt, s, events[..k], f);
      case Ok(s') =>
        RunOk(flt, s, events, s');
        RunOk(flt, s, events[..k + 1], s');
        RunOk(flt, s, events[..k], s');
        assert events[..k + 1][1..] == events[1..][..k];
        assert events[..k][1..] == events[1..][..k - 1];
        StepKeepsFileNameAbsent(flt, s, events[0], g);
        assert forall i :: 0 <= i < k - 1 ==> events[1..][i] == events[i + 1];
        CompletionWithoutBeginFails(flt, s', events[1..], k - 1, g);
    }
  }

  /**
   * The malformed-trace case from the start: a completion with no begin
   * before it on its group ends the conversion there, with the rows of the
   * events before it and, when those raised nothing, a KeyError.
   */
  lemma OrphanCompletionFails(flt: Filter, events: seq<LocatedEvent>, k: nat)
    requires k < |events| && AcceptedCompletion(flt, events[k])
    requires forall i :: 0 <= i < k ==> !AcceptedBegin(flt, events[i], events[k].location.groupName)
    ensures Run(flt, Initial, events).failure.Some?
    ensures Run(flt, Initial, events) == Run(flt, Initial, events[..k + 1])
    ensures Run(flt, Initial, events).engine.rows == Run(flt, Initial, events[..k]).engine.rows
    ensures Run(flt, Initial, events[..k]).failure.None? ==>
      Run(flt, Initial, events).failure.value.MissingKey?
  {
    CompletionWithoutBeginFails(flt, Initial, events, k, events[k].location.groupName);
  }

  /** Every reported file and every pending file name is neither empty nor ignored. */
  ghost predicate FilesAccepted(flt: Filter, s: Engine) {
    && (forall i :: 0 <= i < |s.rows| ==> flt.Accepts(s.rows[i].filename))
    && (forall g :: g in s.rankStat && s.rankStat[g].filename.Some? ==> flt.Accepts(s.rankStat[g].filename.value))
  }

  lemma StepKeepsFilesAccepted(flt: Filter, s: Engine, le: LocatedEvent)
    requires FilesAccepted(flt, s) && Step(flt, s, le).Ok?
    ensures FilesAccepted(flt, Step(flt, s, le).value)
  {
    var s' := Step(flt, s, le).value;
    forall i | 0 <= i < |s'.rows|
      ensures flt.Accepts(s'.rows[i].filename)
    {
      if i >= |s.rows| {
        assert Lookup(s.rankStat, le.location.groupName).filename.Some?;
      }
    }
  }

  /** Filtering holds over whole traces: no row ever names an empty or ignored file. */
  lemma {:induction false} IgnoredFilesNeverReported(flt: Filter, s: Engine, events: seq<LocatedEvent>)
    requires FilesAccepted(flt, s)
    ensures FilesAccepted(flt, Run(flt, s, events).engine)
    decreases |events|
  {
    if events != [] {
      match Step(flt, s, events[0])
      case Err(f) =>
        RunErr(flt, s, events, f);
      case Ok(s') =>
        RunOk(flt, s, events, s');
        StepKeepsFilesAccepted(flt, s, events[0]);
        IgnoredFilesNeverReported(flt, s', events[1..]);
    }
  }

  /** From the start of a trace, every row's file is neither empty nor under an ignored prefix. */
  lemma ReportedFilesAreKept(flt: Filter, events: seq<LocatedEvent>)
    ensures forall r :: r in Run(flt, Initial, events).engine.rows ==> r.filename != [] && !flt.Ignores(r.filename)
  {
    IgnoredFilesNeverReported(flt, Initial, events);
  }

  /** An event that concerns group `g` only, or no group at all. */
  predicate OnRank(le: LocatedEvent, g: string) {
    le.event.ProgramBegin? || le.event.OtherEvent? || le.location.groupName == g
  }

  /** A begin event with no attribute named "offset" (in any case). */
  predicate NoOffsetAttribute(le: LocatedEvent) {
    le.event.IoOperationBegin? ==>
      forall i :: 0 <= i < |le.event.attributes| ==> ToLower(le.event.attributes[i].name) != "offset"
  }

  /** No event of group `g` is a begin with an offset attribute; other groups' begins may have one. */
  predicate NoOffsetOverrideOn(events: seq<LocatedEvent>, g: string) {
    forall i :: 0 <= i < |events| && events[i].location.groupName == g ==> NoOffsetAttribute(events[i])
  }

  /** The offset the next completion on `g` reports, when no begin overrides it. */
  function Cursor(s: Engine, g: string): int {
    Lookup(s.rankStat, g).offset.GetOr(0)
  }

  /** Each row starts where the previous one ended, the first at `cursor`. */
  predicate Contiguous(rows: seq<Row>, cursor: int)
    decreases |rows|
  {
    rows == [] || (rows[0].offset == cursor && Contiguous(rows[1..], cursor + rows[0].size))
  }

  /** The sizes of `rows` added up. */
  function TotalSize(rows: seq<Row>): int {
    if rows == [] then 0 else rows[0].size + TotalSize(rows[1..])
  }

  /** In contiguous rows, row `k` sits at the cursor plus the sizes of the rows before it. */
  lemma {:induction false} ContiguousOffsets(rows: seq<Row>, cursor: int, k: nat)
    requires Contiguous(rows, cursor) && k < |rows|
    ensures rows[k].offset == cursor + TotalSize(rows[..k])
  {
    if k > 0 {
      ContiguousOffsets(rows[1..], cursor + rows[0].size, k - 1);
      assert rows[..k][1..] == rows[1..][..k - 1];
    }
  }

  /**
   * The location group whose completion wrote each row that `Run` appends,
   * in order. A row itself carries only the rank token, which several
   * groups may share.
   */
  function Writers(flt: Filter, s: Engine, events: seq<LocatedEvent>): (w: seq<string>)
    ensures |w| == |Run(flt, s, events).engine.rows| - |s.rows|
    decreases |events|
  {
    if events == [] then []
    else
      match Step(flt, s, events[0])
      case Err(_) => []
      case Ok(s') =>
        (if |s'.rows| == |s.rows| then [] else [events[0].location.groupName]) + Writers(flt, s', events[1..])
  }

  /** The rows whose writer is `g`, in order. */
  function RowsOf(rows: seq<Row>, writers: seq<string>, g: string): seq<Row>
    requires |rows| == |writers|
    decreases |rows|
  {
    if rows == [] then []
    else (if writers[0] == g then [rows[0]] else []) + RowsOf(rows[1..], writers[1..], g)
  }

  /** Row `j` of `added` carries the third token of `writers[j]` as its rank. */
  predicate NamesRanks(added: seq<Row>, writers: seq<string>) {
    && |added| == |writers|
    && forall j :: 0 <= j < |writers| ==> |Split(writers[j])| >= 3 && added[j].rank == Split(writers[j])[2]
  }

  /** Every row appended carries the third token of its writer's group name as its rank. */
  lemma {:induction false} WritersNameRanks(flt: Filter, s: Engine, events: seq<LocatedEvent>)
    ensures NamesRanks(Run(flt, s, events).engine.rows[|s.rows|..], Writers(flt, s, events))
    decreases |events|
  {
    if events == [] {
      assert Run(flt, s, events).engine.rows[|s.rows|..] == [];
    } else {
      match Step(flt, s, events[0])
      case Err(f) =>
        RunErr(flt, s, events, f);
        assert Run(flt, s, events).engine.rows[|s.rows|..] == [];
      case Ok(s') =>
        WritersNameRanks(flt, s', events[1..]);
        StepNamesRank(flt, s, events[0], s');
        WritersAfterStep(flt, s, events, s');
        AddedAfterStep(flt, s, events, s');
        NamesRanksConcat(s'.rows[|s.rows|..], Run(flt, s', events[1..]).engine.rows[|s'.rows|..],
          if |s'.rows| == |s.rows| then [] else [events[0].location.groupName], Writers(flt, s', events[1..]));
    }
  }

  /** The row one event appends, if any, carries the third token of the event's group name as its rank. */
  lemma StepNamesRank(flt: Filter, s: Engine, le: LocatedEvent, s': Engine)
    requires Step(flt, s, le) == Ok(s')
    ensures NamesRanks(s'.rows[|s.rows|..], if |s'.rows| == |s.rows| then [] else [le.location.groupName])
  {
    if |s'.rows| != |s.rows| {
      AcceptedCompletionFailures(flt, s, le);
      AcceptedCompletionEmitsOneRow(flt, s, le);
    }
  }

  /** Rows matched with their writers, followed by more such rows, stay matched. */
  lemma NamesRanksConcat(a: seq<Row>, b: seq<Row>, wa: seq<string>, wb: seq<string>)
    requires NamesRanks(a, wa) && NamesRanks(b, wb)
    ensures NamesRanks(a + b, wa + wb)
  {
    forall j | 0 <= j < |wa + wb|
      ensures |Split((wa + wb)[j])| >= 3 && (a + b)[j].rank == Split((wa + wb)[j])[2]
    {
      if j >= |wa| {
        assert (wa + wb)[j] == wb[j - |wa|] && (a + b)[j] == b[j - |a|];
      }
    }
  }

  /**
   * One event of `g` without an offset attribute either emits nothing and
   * keeps the cursor, or emits one row at the cursor and moves the cursor
   * past it.
   */
  lemma StepAdvancesCursor(flt: Filter, s: Engine, le: LocatedEvent, g: string)
    requires OnRank(le, g) && NoOffsetAttribute(le) && Step(flt, s, le).Ok?
    ensures
      var s' := Step(flt, s, le).value;
      || (s'.rows == s.rows && Cursor(s', g) == Cursor(s, g))
      || (&& |s'.rows| == |s.rows| + 1 && s'.rows[..|s.rows|] == s.rows
          && s'.rows[|s.rows|].offset == Cursor(s, g)
          && Cursor(s', g) == Cursor(s, g) + s'.rows[|s.rows|].size)
  {
    if le.event.IoOperationBegin? {
      OffsetAttributeIsLastOffset(le.event.attributes);
    } else if AcceptedCompletion(flt, le) {
      AcceptedCompletionFailures(flt, s, le);
      AcceptedCompletionEmitsOneRow(flt, s, le);
    }
  }

  /** After one successful event, the writers are that event's group, if it wrote a row, then the later writers. */
  lemma WritersAfterStep(flt: Filter, s: Engine, events: seq<LocatedEvent>, s': Engine)
    requires events != [] && Step(flt, s, events[0]) == Ok(s')
    ensures Writers(flt, s, events)
      == (if |s'.rows| == |s.rows| then [] else [events[0].location.groupName]) + Writers(flt, s', events[1..])
  {
  }

  /** After one successful event, the rows appended are that event's rows, then the later rows. */
  lemma AddedAfterStep(flt: Filter, s: Engine, events: seq<LocatedEvent>, s': Engine)
    requires events != [] && Step(flt, s, events[0]) == Ok(s')
    ensures Run(flt, s, events).engine.rows[|s.rows|..]
      == s'.rows[|s.rows|..] + Run(flt, s', events[1..]).engine.rows[|s'.rows|..]
  {
    RunOk(flt, s, events, s');
    AppendedSlices(s.rows, s'.rows, Run(flt, s', events[1..]).engine.rows);
  }

  /** The rows `b` appends to `a`, followed by the rows `c` appends to `b`, are the rows `c` appends to `a`. */
  lemma AppendedSlices(a: seq<Row>, b: seq<Row>, c: seq<Row>)
    requires a <= b && b <= c
    ensures c[|a|..] == b[|a|..] + c[|b|..]
  {
  }

  /** `RowsOf` of at most one leading row: that row is kept exactly when its writer is `g`. */
  lemma RowsOfFirst(first: seq<Row>, rows: seq<Row>, h: seq<string>, writers: seq<string>, g: string)
    requires |first| == |h| <= 1 && |rows| == |writers|
    ensures RowsOf(first + rows, h + writers, g)
      == (if first != [] && h[0] == g then first else []) + RowsOf(rows, writers, g)
  {
    if first != [] {
      assert (first + rows)[1..] == rows;
      assert (h + writers)[1..] == writers;
    } else {
      assert first + rows == rows;
      assert h + writers == writers;
    }
  }

  /** The number of completions on group `g` whose file is neither empty nor ignored. */
  function AcceptedCompletionsOn(flt: Filter, events: seq<LocatedEvent>, g: string): nat
    decreases |events|
  {
    if events == [] then 0
    else
      (if AcceptedCompletion(flt, events[0]) && events[0].location.groupName == g then 1 else 0)
      + AcceptedCompletionsOn(flt, events[1..], g)
  }

  /**
   * On a trace that raises nothing, each group writes exactly one row per
   * completion of its own on an accepted file, however the groups interleave.
   */
  lemma {:induction false} RowsPerGroup(flt: Filter, s: Engine, events: seq<LocatedEvent>, g: string)
    requires Run(flt, s, events).failure.None?
    ensures |RowsOf(Run(flt, s, events).engine.rows[|s.rows|..], Writers(flt, s, events), g)|
      == AcceptedCompletionsOn(flt, events, g)
    decreases |events|
  {
    if events == [] {
      assert Run(flt, s, events).engine.rows[|s.rows|..] == [];
    } else {
      var st := Step(flt, s, events[0]);
      if st.Err? {
        assert false;
      }
      var s' := st.value;
      RunOk(flt, s, events, s');
      RowsPerGroup(flt, s', events[1..], g);
      WritersAfterStep(flt, s, events, s');
      AddedAfterStep(flt, s, events, s');
      var h := if |s'.rows| == |s.rows| then [] else [events[0].location.groupName];
      RowsOfFirst(s'.rows[|s.rows|..], Run(flt, s', events[1..]).engine.rows[|s'.rows|..],
        h, Writers(flt, s', events[1..]), g);
    }
  }

  /**
   * On any trace, with the groups' events interleaved in any order, the rows
   * written by `g`'s completions are contiguous from `g`'s cursor when no
   * begin of `g` carries an offset attribute, even when the trace ends with
   * an exception.
   */
  lemma {:induction false} OffsetsContiguous(flt: Filter, s: Engine, events: seq<LocatedEvent>, g: string)
    requires NoOffsetOverrideOn(events, g)
    ensures Contiguous(RowsOf(Run(flt, s, events).engine.rows[|s.rows|..], Writers(flt, s, events), g), Cursor(s, g))
    decreases |events|
  {
    var rows := Run(flt, s, events).engine.rows;
    if events == [] {
      assert rows[|s.rows|..] == [];
    } else {
      match Step(flt, s, events[0])
      case Err(f) =>
        RunErr(flt, s, events, f);
        assert rows[|s.rows|..] == [];
      case Ok(s') =>
        var le := events[0];
        assert NoOffsetOverrideOn(events[1..], g) by {
          forall i | 0 <= i < |events[1..]| && events[1..][i].location.groupName == g
            ensures NoOffsetAttribute(events[1..][i])
          {
            assert events[1..][i] == events[i + 1];
          }
        }
        OffsetsContiguous(flt, s', events[1..], g);
        var first := s'.rows[|s.rows|..];
        var h := if |s'.rows| == |s.rows| then [] else [le.location.groupName];
        var added := Run(flt, s', events[1..]).engine.rows[|s'.rows|..];
        var w := Writers(flt, s', events[1..]);
        WritersAfterStep(flt, s, events, s');
        AddedAfterStep(flt, s, events, s');
        CursorAfterStep(flt, s, le, g);
        ContiguousAfterFirst(first, added, h, w, g, Cursor(s, g), Cursor(s', g));
    }
  }

  /**
   * One successful event moves `g`'s cursor past the row it writes for `g`,
   * and otherwise leaves the cursor where it was, when that event is not a
   * begin of `g` with an offset attribute.
   */
  lemma CursorAfterStep(flt: Filter, s: Engine, le: LocatedEvent, g: string)
    requires Step(flt, s, le).Ok? && (le.location.groupName == g ==> NoOffsetAttribute(le))
    ensures
      var s' := Step(flt, s, le).value;
      if |s'.rows| != |s.rows| && le.location.groupName == g then
        s'.rows[|s.rows|].offset == Cursor(s, g) && Cursor(s', g) == Cursor(s, g) + s'.rows[|s.rows|].size
      else Cursor(s', g) == Cursor(s, g)
  {
    var s' := Step(flt, s, le).value;
    if le.location.groupName == g {
      StepAdvancesCursor(flt, s, le, g);
    } else {
      assert Lookup(s'.rankStat, g) == Lookup(s.rankStat, g);
    }
  }

  /** Contiguity from `cursor` of `g`'s rows, given at most one leading row that moves the cursor to `next`. */
  lemma ContiguousAfterFirst(first: seq<Row>, rows: seq<Row>, h: seq<string>, writers: seq<string>, g: string,
                             cursor: int, next: int)
    requires |first| == |h| <= 1 && |rows| == |writers|
    requires Contiguous(RowsOf(rows, writers, g), next)
    requires if first != [] && h[0] == g then first[0].offset == cursor && next == cursor + first[0].size
             else next == cursor
    ensures Contiguous(RowsOf(first + rows, h + writers, g), cursor)
  {
    RowsOfFirst(first, rows, h, writers, g);
    var later := RowsOf(rows, writers, g);
    if first != [] && h[0] == g {
      assert (first + later)[1..] == later;
    } else {
      assert [] + later == later;
    }
  }

  /**
   * From the start of a trace, the offsets of the rows each group writes are
   * 0, s1, s1 + s2, ...: each is the total size of that group's earlier rows,
   * however the groups interleave, when no begin of the group carries an
   * offset attribute.
   */
  lemma OffsetsFromZero(flt: Filter, events: seq<LocatedEvent>, g: string)
    requires NoOffsetOverrideOn(events, g)
    ensures
      var mine := RowsOf(Run(flt, Initial, events).engine.rows, Writers(flt, Initial, events), g);
      forall k :: 0 <= k < |mine| ==> mine[k].offset == TotalSize(mine[..k])
  {
    var rows := Run(flt, Initial, events).engine.rows;
    var mine := RowsOf(rows, Writers(flt, Initial, events), g);
    OffsetsContiguous(flt, Initial, events, g);
    assert rows[|Initial.rows|..] == rows;
    forall k | 0 <= k < |mine|
      ensures mine[k].offset == TotalSize(mine[..k])
    {
      ContiguousOffsets(mine, 0, k);
    }
  }

  /**
   * An accepted begin of `g` whose last "offset" attribute holds `v` moves
   * `g`'s cursor to `v`: the rows `g` writes afterwards, without further
   * overrides on `g`, continue v, v + s, ... whatever other groups do.
   */
  lemma OverrideRestartsCursor(flt: Filter, s: Engine, b: LocatedEvent, rest: seq<LocatedEvent>, g: string, i: nat)
    requires AcceptedBegin(flt, b, g) && LastNamed(b.event.attributes, i, "offset")
    requires NoOffsetOverrideOn(rest, g)
    ensures Contiguous(RowsOf(Run(flt, s, [b] + rest).engine.rows[|s.rows|..], Writers(flt, s, [b] + rest), g),
                       b.event.attributes[i].value)
  {
    AcceptedBeginRecordsPending(flt, s, b);
    var s' := Step(flt, s, b).value;
    RunOk(flt, s, [b] + rest, s');
    assert ([b] + rest)[1..] == rest;
    assert Writers(flt, s, [b] + rest) == Writers(flt, s', rest);
    OffsetsContiguous(flt, s', rest, g);
  }

  // ---------------------------------------------------------------------------
  // Worked examples
  // ---------------------------------------------------------------------------

  /** The rank column is the third token of the location group's name. */
  lemma RankToken()
    ensures Split("MPI Rank 3") == ["MPI", "Rank", "3"]
    ensures Split("MPI Rank 0") == ["MPI", "Rank", "0"]
    ensures |Split("Rank 0")| == 2
  {
    RankTokenOf("3");
    assert "MPI Rank " + "3" == "MPI Rank 3";
    RankTokenOf("0");
    assert "MPI Rank " + "0" == "MPI Rank 0";
    SplitJoin(["Rank", "0"]);
    assert Join(["Rank", "0"]) == "Rank 0";
  }

  /** "MPI Rank " followed by a one-character rank splits into three tokens. */
  lemma RankTokenOf(r: string)
    requires |r| == 1 && !IsSpace(r[0])
    ensures Split("MPI Rank " + r) == ["MPI", "Rank", r]
  {
    SplitJoin(["MPI", "Rank", r]);
    assert ["MPI", "Rank", r][1..] == ["Rank", r] && ["Rank", r][1..] == [r];
    assert Join(["Rank", r]) == "Rank" + " " + r;
    assert Join(["MPI", "Rank", r]) == "MPI" + " " + ("Rank" + " " + r);
    assert "MPI" + " " + ("Rank" + " " + r) == "MPI Rank " + r;
  }

  /** Runs of spaces and tabs, and leading or trailing white space, give the same three tokens. */
  lemma RankTokenIrregularSpacing()
    ensures Split(" MPI  Rank\t3\n") == ["MPI", "Rank", "3"]
  {
    SplitInterleave(["MPI", "Rank", "3"], [" ", "  ", "\t", "\n"]);
    assert Interleave(["MPI", "Rank", "3"], [" ", "  ", "\t", "\n"]) == " MPI  Rank\t3\n";
  }

  /** One read of `size` bytes of /data/f on `group`, begun 2 s and completed 5 s after `t0`. */
  function ReadTrace(group: string, t0: nat, size: nat): seq<LocatedEvent> {
    var loc := Location(group);
    var file := IoHandle("/data/f", None);
    [ LocatedEvent(loc, ProgramBegin(t0)),
      LocatedEvent(loc, Enter("read")),
      LocatedEvent(loc, IoOperationBegin(t0 + 2000000, file, size, [])),
      LocatedEvent(loc, IoOperationComplete(t0 + 5000000, file)) ]
  }

  /** The state after the first three events of `ReadTrace`: the read is pending at offset 0. */
  lemma ReadTracePending(group: string, t0: nat, size: nat) returns (s3: Engine)
    ensures Run(Otf2Csv, Initial, ReadTrace(group, t0, size)) == Run(Otf2Csv, s3, ReadTrace(group, t0, size)[3..])
    ensures s3.startTime == t0 && s3.rows == []
    ensures Lookup(s3.rankStat, group) == RankState(Some("read"), Some("/data/f"), Some(2.0), Some(size), Some(0))
  {
    var events := ReadTrace(group, t0, size);
    var file := IoHandle("/data/f", None);
    KeptFileExamples();
    assert Otf2Csv.Accepts(FileName(file));
    TrackedExamples();
    NonIoEventsOnlySetStartTime(Otf2Csv, Initial, events[0]);
    var s1 := Step(Otf2Csv, Initial, events[0]).value;
    assert s1 == Initial.(startTime := t0);
    EnterSetsFunctionAndFirstOffset(Otf2Csv, s1, events[1]);
    var s2 := Step(Otf2Csv, s1, events[1]).value;
    AcceptedBeginRecordsPending(Otf2Csv, s2, events[2]);
    s3 := Step(Otf2Csv, s2, events[2]).value;
    assert Normalize(t0 + 2000000, t0) == 2.0;
    RunOk(Otf2Csv, Initial, events, s1);
    RunOk(Otf2Csv, s1, events[1..], s2);
    assert events[1..][1..] == events[2..];
    RunOk(Otf2Csv, s2, events[2..], s3);
    assert events[2..][1..] == events[3..];
  }

  /**
   * Times are reported relative to the program begin, in seconds: the read
   * spans 2.0 to 5.0, at offset 0, in the rank named by the group's third
   * token ("0" for "MPI Rank 0").
   */
  lemma SingleReadScenario(group: string, t0: nat, size: nat)
    requires |Split(group)| >= 3
    ensures var r := Run(Otf2Csv, Initial, ReadTrace(group, t0, size));
      r.failure == None && r.engine.rows == [Row("read", "/data/f", Split(group)[2], 2.0, 5.0, size, 0)]
  {
    var events := ReadTrace(group, t0, size);
    var s3 := ReadTracePending(group, t0, size);
    KeptFileExamples();
    assert AcceptedCompletion(Otf2Csv, events[3]);
    AcceptedCompletionEmitsOneRow(Otf2Csv, s3, events[3]);
    var s4 := Step(Otf2Csv, s3, events[3]).value;
    assert Normalize(t0 + 5000000, t0) == 5.0;
    assert s4.rows == [Row("read", "/data/f", Split(group)[2], 2.0, 5.0, size, 0)];
    RunOk(Otf2Csv, s3, events[3..], s4);
    assert events[3..][1..] == [];
  }

  /** A group name with only two tokens makes the same trace fail at the rank column, writing no row. */
  lemma ShortGroupNameFails(t0: nat, size: nat)
    ensures var r := Run(Otf2Csv, Initial, ReadTrace("Rank 0", t0, size));
      r.failure == Some(RankIndexError("Rank 0")) && r.engine.rows == []
  {
    var events := ReadTrace("Rank 0", t0, size);
    var s3 := ReadTracePending("Rank 0", t0, size);
    RankToken();
    KeptFileExamples();
    assert AcceptedCompletion(Otf2Csv, events[3]);
    AcceptedCompletionFailures(Otf2Csv, s3, events[3]);
    RunErr(Otf2Csv, s3, events[3..], RankIndexError("Rank 0"));
  }
}
