/**
 * The event correlation engine of otf2csv.py (the loop of `otf2_to_csv`).
 *
 * For every location group the engine keeps the pending I/O operation:
 * the tracked call last entered, the file, start time and size of the last
 * accepted begin event, and a running byte offset. Each accepted completion
 * emits one CSV row built from that pending state and then advances the
 * offset by the operation's size.
 *
 * `Step` and `Run` state what one event and a whole trace do; the class
 * `Converter` holds the same state as fields and updates it in place, and
 * `ConvertTrace` is the conversion loop, proved to compute `Run`.
 */
module Correlation {
  import opened Common
  import opened Trace
  import opened Text
  import opened Classifier

  /** Trace timestamps are divided by this to give the times written to the table. */
  const TimerGranularity: int := 1000000

  /** A timestamp relative to the program's start, in units of the granularity. */
  function Normalize(time: int, startTime: int): (r: real)
    ensures r * TimerGranularity as real == (time - startTime) as real
  {
    (time - startTime) as real / TimerGranularity as real
  }

  /**
   * The dictionary a location group's name maps to. Each field is a key the
   * dictionary may lack; `None` is a missing key.
   */
  datatype RankState = RankState(
    func: Option<string>,
    filename: Option<string>,
    start: Option<real>,
    size: Option<nat>,
    offset: Option<int>)

  /** The empty dictionary a group gets on first access. */
  const Untouched: RankState := RankState(None, None, None, None, None)

  /** The dictionary of `group`, empty when the group was never touched. */
  function Lookup(rankStat: map<string, RankState>, group: string): RankState {
    if group in rankStat then rankStat[group] else Untouched
  }

  /** One output row: function, filename, rank, start, end, size, offset. */
  datatype Row = Row(func: string, filename: string, rank: string, start: real, end: real, size: nat, offset: int)

  /** The exceptions a completion can raise, which end the conversion. */
  datatype Failure =
    | MissingKey(group: string, key: string)  // KeyError on the group's dictionary
    | RankIndexError(group: string)           // IndexError: the group name has fewer than three tokens

  /** The converter's state: the per-group dictionaries, the start time and the rows written so far. */
  datatype Engine = Engine(rankStat: map<string, RankState>, startTime: int, rows: seq<Row>)

  /** The state before the first event: no group touched, start time 0, no rows. */
  const Initial: Engine := Engine(map[], 0, [])

  /** Attribute `i` is the last one whose name lower-cases to `key`. */
  predicate LastNamed(attrs: seq<Attribute>, i: int, key: string) {
    && 0 <= i < |attrs|
    && ToLower(attrs[i].name) == key
    && forall j :: i < j < |attrs| ==> ToLower(attrs[j].name) != key
  }

  /**
   * The attribute dictionary with lower-cased keys, built in attribute order,
   * so that a later attribute overrides an earlier one with the same key.
   */
  function LowerKeys(attrs: seq<Attribute>): (m: map<string, int>)
    ensures forall i :: 0 <= i < |attrs| ==> ToLower(attrs[i].name) in m
    decreases |attrs|
  {
    if attrs == [] then map[]
    else
      var init := attrs[..|attrs| - 1];
      var last := attrs[|attrs| - 1];
      assert forall i :: 0 <= i < |init| ==> init[i] == attrs[i];
      LowerKeys(init)[ToLower(last.name) := last.value]
  }

  /** Every key of the dictionary holds the value of the last attribute with that lower-cased name. */
  lemma {:induction false} LowerKeysLastWins(attrs: seq<Attribute>, key: string)
    requires key in LowerKeys(attrs)
    ensures exists i :: LastNamed(attrs, i, key) && LowerKeys(attrs)[key] == attrs[i].value
    decreases |attrs|
  {
    var init := attrs[..|attrs| - 1];
    var last := attrs[|attrs| - 1];
    if key == ToLower(last.name) {
      assert LastNamed(attrs, |attrs| - 1, key);
    } else {
      LowerKeysLastWins(init, key);
      var i :| LastNamed(init, i, key) && LowerKeys(init)[key] == init[i].value;
      assert attrs[i] == init[i];
      assert LastNamed(attrs, i, key);
    }
  }

  /** The offset an event's attributes set explicitly, if any attribute is named `offset` in any case. */
  function OffsetAttribute(attrs: seq<Attribute>): (r: Option<int>)
    ensures (exists i :: 0 <= i < |attrs| && ToLower(attrs[i].name) == "offset") ==> r.Some?
  {
    var m := LowerKeys(attrs);
    if "offset" in m then Some(m["offset"]) else None
  }

  /**
   * A tracked region entered on `group`: the call becomes the pending
   * function, and the offset is set to 0 unless the group already has one.
   */
  function EnterRegion(flt: Filter, s: Engine, group: string, region: string): (r: Engine)
    ensures r.rows == s.rows && r.startTime == s.startTime
    ensures forall g :: g != group ==> Lookup(r.rankStat, g) == Lookup(s.rankStat, g)
    ensures !flt.Tracks(region) ==> r == s
    ensures flt.Tracks(region) ==>
      Lookup(r.rankStat, group).func == Some(region) && Lookup(r.rankStat, group).offset.Some?
  {
    if flt.Tracks(region) then
      var st := Lookup(s.rankStat, group);
      var offset := if st.offset.Some? then st.offset else Some(0);
      s.(rankStat := s.rankStat[group := st.(func := Some(region), offset := offset)])
    else s
  }

  /**
   * A begin event on `group`: unless its file is skipped, records the start
   * time, file name and size, and an explicit offset attribute if present.
   */
  function BeginOperation(flt: Filter, s: Engine, group: string, time: int, handle: IoHandle,
                          bytesRequest: nat, attributes: seq<Attribute>): (r: Engine)
    ensures r.rows == s.rows && r.startTime == s.startTime
    ensures forall g :: g != group ==> Lookup(r.rankStat, g) == Lookup(s.rankStat, g)
    ensures !flt.Accepts(FileName(handle)) ==> r == s
    ensures flt.Accepts(FileName(handle)) ==>
      && Lookup(r.rankStat, group).filename == Some(FileName(handle))
      && Lookup(r.rankStat, group).size == Some(bytesRequest)
      && Lookup(r.rankStat, group).func == Lookup(s.rankStat, group).func
  {
    var name := FileName(handle);
    if flt.Accepts(name) then
      var st := Lookup(s.rankStat, group);
      var explicit := OffsetAttribute(attributes);
      var st' := st.(start := Some(Normalize(time, s.startTime)), filename := Some(name),
                     size := Some(bytesRequest), offset := if explicit.Some? then explicit else st.offset);
      s.(rankStat := s.rankStat[group := st'])
    else s
  }

  /**
   * A completion event on `group`: unless its file is skipped, reads the
   * pending fields, emits a row and advances the offset by the size.
   */
  function CompleteOperation(flt: Filter, s: Engine, group: string, time: int, handle: IoHandle): (r: Result<Engine, Failure>)
    ensures !flt.Accepts(FileName(handle)) ==> r == Ok(s)
    ensures r.Err? ==> r.error.group == group
    ensures r.Ok? ==> r.value.startTime == s.startTime
    ensures r.Ok? ==> forall g :: g != group ==> Lookup(r.value.rankStat, g) == Lookup(s.rankStat, g)
    ensures r.Ok? && flt.Accepts(FileName(handle)) ==>
      && |r.value.rows| == |s.rows| + 1 && r.value.rows[..|s.rows|] == s.rows
      && Lookup(r.value.rankStat, group).offset ==
           Some(r.value.rows[|s.rows|].offset + r.value.rows[|s.rows|].size)
  {
    if !flt.Accepts(FileName(handle)) then Ok(s)
    else
      var st := Lookup(s.rankStat, group);
      if st.func.None? then Err(MissingKey(group, "function"))
      else if st.filename.None? then Err(MissingKey(group, "filename"))
      else if st.start.None? then Err(MissingKey(group, "start"))
      else if st.size.None? then Err(MissingKey(group, "size"))
      else if st.offset.None? then Err(MissingKey(group, "offset"))
      else
        var tokens := Split(group);
        if |tokens| < 3 then Err(RankIndexError(group))
        else
          var row := Row(st.func.value, st.filename.value, tokens[2], st.start.value,
                         Normalize(time, s.startTime), st.size.value, st.offset.value);
          Ok(s.(rows := s.rows + [row],
                rankStat := s.rankStat[group := st.(offset := Some(st.offset.value + st.size.value))]))
  }

  /** What one event of the trace does to the converter's state. */
  function Step(flt: Filter, s: Engine, le: LocatedEvent): (r: Result<Engine, Failure>)
    ensures r.Err? ==> le.event.IoOperationComplete?
    ensures r.Ok? ==> s.rows <= r.value.rows && |r.value.rows| <= |s.rows| + 1
    ensures r.Ok? && !AcceptedCompletion(flt, le) ==> r.value.rows == s.rows
    ensures r.Ok? && !le.event.ProgramBegin? ==> r.value.startTime == s.startTime
    ensures r.Ok? ==> forall g :: g != le.location.groupName ==>
      Lookup(r.value.rankStat, g) == Lookup(s.rankStat, g)
  {
    var group := le.location.groupName;
    match le.event
    case ProgramBegin(time) => Ok(s.(startTime := time))
    case Enter(region) => Ok(EnterRegion(flt, s, group, region))
    case IoOperationBegin(time, handle, bytesRequest, attributes) =>
      Ok(BeginOperation(flt, s, group, time, handle, bytesRequest, attributes))
    case IoOperationComplete(time, handle) => CompleteOperation(flt, s, group, time, handle)
    case OtherEvent => Ok(s)
  }

  /** The result of converting a trace: the final state and the exception that ended it, if any. */
  datatype Outcome = Outcome(engine: Engine, failure: Option<Failure>)

  /** Whether an event is a completion on a file that is neither empty nor ignored. */
  predicate AcceptedCompletion(flt: Filter, le: LocatedEvent) {
    le.event.IoOperationComplete? && flt.Accepts(FileName(le.event.handle))
  }

  /** The number of accepted completions in `events`. */
  function AcceptedCompletions(flt: Filter, events: seq<LocatedEvent>): nat {
    if events == [] then 0
    else (if AcceptedCompletion(flt, events[0]) then 1 else 0) + AcceptedCompletions(flt, events[1..])
  }

  /**
   * The events processed one after the other; the first exception stops the
   * conversion, keeping the rows written before it.
   */
  function Run(flt: Filter, s: Engine, events: seq<LocatedEvent>): (r: Outcome)
    ensures s.rows <= r.engine.rows
    ensures r.failure.None? ==> |r.engine.rows| == |s.rows| + AcceptedCompletions(flt, events)
    decreases |events|
  {
    if events == [] then Outcome(s, None)
    else
      match Step(flt, s, events[0])
      case Err(f) => Outcome(s, Some(f))
      case Ok(s') => Run(flt, s', events[1..])
  }

  /** A trace whose first event succeeds continues from the state that event leaves. */
  lemma RunOk(flt: Filter, s: Engine, events: seq<LocatedEvent>, s': Engine)
    requires events != [] && Step(flt, s, events[0]) == Ok(s')
    ensures Run(flt, s, events) == Run(flt, s', events[1..])
  {
  }

  /** A trace whose first event raises stops there, with the state as it was. */
  lemma RunErr(flt: Filter, s: Engine, events: seq<LocatedEvent>, f: Failure)
    requires events != [] && Step(flt, s, events[0]) == Err(f)
    ensures Run(flt, s, events) == Outcome(s, Some(f))
  {
  }

  /** The converter's state held in fields that each event updates in place. */
  class Converter {
    /** The files skipped and the calls tracked, fixed for the converter's lifetime. */
    const filter: Filter
    var rankStat: map<string, RankState>
    var startTime: int
    var rows: seq<Row>

    /** The fields as a value. */
    function State(): Engine
      reads this
    {
      Engine(rankStat, startTime, rows)
    }

    constructor (flt: Filter)
      ensures filter == flt && State() == Initial
    {
      filter := flt;
      rankStat := map[];
      startTime := 0;
      rows := [];
    }

    /** A tracked region entered on `group`. */
    method Enter(group: string, region: string)
      modifies this
      ensures State() == EnterRegion(filter, old(State()), group, region)
    {
      if filter.Tracks(region) {
        var st := Lookup(rankStat, group).(func := Some(region));
        if st.offset.None? {
          st := st.(offset := Some(0));
        }
        rankStat := rankStat[group := st];
      }
    }

    /** A begin event on `group`. */
    method Begin(group: string, time: int, handle: IoHandle, bytesRequest: nat, attributes: seq<Attribute>)
      modifies this
      ensures State() == BeginOperation(filter, old(State()), group, time, handle, bytesRequest, attributes)
    {
      var name := FileName(handle);
      if filter.Accepts(name) {
        var st := Lookup(rankStat, group);
        st := st.(start := Some(Normalize(time, startTime)));
        st := st.(filename := Some(name));
        st := st.(size := Some(bytesRequest));
        var explicit := OffsetAttribute(attributes);
        if explicit.Some? {
          st := st.(offset := explicit);
        }
        rankStat := rankStat[group := st];
      }
    }

    /** A completion event on `group`; returns the exception it raises, leaving the state as it was. */
    method Complete(group: string, time: int, handle: IoHandle) returns (failure: Option<Failure>)
      modifies this
      ensures failure.None? ==> CompleteOperation(filter, old(State()), group, time, handle) == Ok(State())
      ensures failure.Some? ==>
        CompleteOperation(filter, old(State()), group, time, handle) == Err(failure.value) && State() == old(State())
    {
      failure := None;
      if filter.Accepts(FileName(handle)) {
        var st := Lookup(rankStat, group);
        if st.func.None? { return Some(MissingKey(group, "function")); }
        if st.filename.None? { return Some(MissingKey(group, "filename")); }
        if st.start.None? { return Some(MissingKey(group, "start")); }
        if st.size.None? { return Some(MissingKey(group, "size")); }
        if st.offset.None? { return Some(MissingKey(group, "offset")); }
        var end := Normalize(time, startTime);
        var tokens := Split(group);
        if |tokens| < 3 { return Some(RankIndexError(group)); }
        rows := rows + [Row(st.func.value, st.filename.value, tokens[2], st.start.value,
                            end, st.size.value, st.offset.value)];
        rankStat := rankStat[group := st.(offset := Some(st.offset.value + st.size.value))];
      }
    }

    /** Processes one event; returns the exception it raises, leaving the state as it was. */
    method Process(le: LocatedEvent) returns (failure: Option<Failure>)
      modifies this
      ensures failure.None? ==> Step(filter, old(State()), le) == Ok(State())
      ensures failure.Some? ==> Step(filter, old(State()), le) == Err(failure.value) && State() == old(State())
    {
      failure := None;
      var group := le.location.groupName;
      match le.event {
        case ProgramBegin(time) => startTime := time;
        case Enter(region) => Enter(group, region);
        case IoOperationBegin(time, handle, bytesRequest, attributes) =>
          Begin(group, time, handle, bytesRequest, attributes);
        case IoOperationComplete(time, handle) => failure := Complete(group, time, handle);
        case OtherEvent =>
      }
    }
  }

  /**
   * Converts a trace: the rows written, in order, and the exception that
   * stopped the conversion, if any.
   */
  method ConvertTrace(events: seq<LocatedEvent>) returns (rows: seq<Row>, failure: Option<Failure>)
    ensures rows == Run(Otf2Csv, Initial, events).engine.rows
    ensures failure == Run(Otf2Csv, Initial, events).failure
  {
    var converter := new Converter(Otf2Csv);
    failure := None;
    var i := 0;
    while i < |events|
      invariant 0 <= i <= |events|
      invariant converter.filter == Otf2Csv
      invariant Run(Otf2Csv, Initial, events) == Run(Otf2Csv, converter.State(), events[i..])
      invariant failure.None?
    {
      ghost var before := converter.State();
      failure := converter.Process(events[i]);
      if failure.Some? {
        RunErr(Otf2Csv, before, events[i..], failure.value);
        rows := converter.rows;
        return;
      }
      RunOk(Otf2Csv, before, events[i..], converter.State());
      assert events[i..][1..] == events[i + 1..];
      i := i + 1;
    }
    rows := converter.rows;
  }
}
