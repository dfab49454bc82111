/** The job record and the job table (model/job.go).

    A `Job` is the in-memory record the server and the worker pass around and
    update in place; the `JobStore` is the job table, one row per queued job,
    whose row at index k has id k + 1 (rows are never deleted, so the
    auto-increment key is the row count). The statements the operations send to
    the database become updates of that sequence. Whether the transaction can be
    opened and whether the statement succeeds are a `DbFault` parameter; the
    clock and the random source are parameters too. */
module Jobs {
  import opened Wrappers
  import opened Params
  import Base64Url

  /** A point in time, as the clock reports it. */
  type Instant = int

  const StatusPending := 1
  const StatusRunning := 2
  const StatusComplete := 3
  const StatusError := 4

  /** The name the job_status table holds for each status id. */
  function StatusName(id: int): string {
    if id == StatusPending then "Pending"
    else if id == StatusRunning then "Running"
    else if id == StatusComplete then "Complete"
    else if id == StatusError then "Error"
    else ""
  }

  /** A status id with a row in the job_status table. */
  predicate KnownStatus(id: int) {
    StatusPending <= id <= StatusError
  }

  /** The job_status table names exactly the known status ids. */
  lemma KnownStatusNamed(id: int)
    ensures KnownStatus(id) <==> StatusName(id) != ""
  {
  }

  const NoParams := ExtraParams(0, 0, "", false, false, "", "", "")

  /** Every field of a Job. Byte slices are strings, nil times are None. */
  datatype JobValue = JobValue(
    id: int,
    email: string,
    token: string,
    statusId: int,
    status: string,
    task: string,
    percentComplete: int,
    logMessage: string,
    name: string,
    fileType: string,
    inputData: string,
    densityMap: string,
    fscChart: string,
    summaryChart: string,
    rawData: string,
    dmax: real,
    numSamples: int,
    oversampling: real,
    voxelSize: real,
    electrons: int,
    maxSteps: int,
    maxRuns: int,
    params: string,
    submitted: Option<Instant>,
    started: Option<Instant>,
    completed: Option<Instant>,
    extra: ExtraParams
  )

  /** A Job with every field at its zero value. */
  const Blank := JobValue(0, "", "", 0, "", "", 0, "", "", "", "", "", "", "", "",
                          0.0, 0, 0.0, 0.0, 0, 0, 0, "", None, None, None, NoParams)

  /** The columns of one row of the job table. */
  datatype Row = Row(
    statusId: int,
    task: string,
    percentComplete: int,
    logMessage: string,
    inputData: string,
    name: string,
    token: string,
    email: string,
    fileType: string,
    dmax: real,
    numSamples: int,
    oversampling: real,
    electrons: int,
    maxSteps: int,
    maxRuns: int,
    params: string,
    voxelSize: real,
    densityMap: string,
    fscChart: string,
    summaryChart: string,
    rawData: string,
    submitted: Option<Instant>,
    started: Option<Instant>,
    completed: Option<Instant>
  )

  /** The row QueueJob's insert writes: the listed columns from the job, the
      result blobs and the start and completion times left empty. */
  function Inserted(v: JobValue): Row {
    Row(v.statusId, v.task, v.percentComplete, v.logMessage, v.inputData, v.name,
        v.token, v.email, v.fileType, v.dmax, v.numSamples, v.oversampling,
        v.electrons, v.maxSteps, v.maxRuns, v.params, v.voxelSize,
        "", "", "", "", v.submitted, None, None)
  }

  /** The Job FetchNextPending's select loads: no task, progress, log message or
      result blobs, and the parameters still packed in `params`. */
  function PendingView(id: int, r: Row): JobValue {
    Blank.(id := id, statusId := r.statusId, status := StatusName(r.statusId),
           inputData := r.inputData, name := r.name, token := r.token, email := r.email,
           fileType := r.fileType, dmax := r.dmax, oversampling := r.oversampling,
           numSamples := r.numSamples, electrons := r.electrons, maxSteps := r.maxSteps,
           maxRuns := r.maxRuns, params := r.params, voxelSize := r.voxelSize,
           submitted := r.submitted, started := r.started, completed := r.completed)
  }

  /** The Job FetchAllJobs's select loads: no input data and no parameters. */
  function ListView(id: int, r: Row): (v: JobValue)
    ensures v.id == id && v.statusId == r.statusId
  {
    Blank.(id := id, statusId := r.statusId, status := StatusName(r.statusId),
           name := r.name, token := r.token, email := r.email, fileType := r.fileType,
           dmax := r.dmax, oversampling := r.oversampling, numSamples := r.numSamples,
           electrons := r.electrons, maxSteps := r.maxSteps, maxRuns := r.maxRuns,
           voxelSize := r.voxelSize, submitted := r.submitted, started := r.started,
           completed := r.completed)
  }

  // ---------------------------------------------------------------------------
  // Parameters

  /** What UnmarshallParams leaves in the extra parameters: unchanged for an empty
      `params`, the decoded object otherwise, None when the text does not decode. */
  function UnmarshalledExtra(params: string, extra: ExtraParams): Option<ExtraParams> {
    if params == "" then Some(extra) else DecodeParams(params)
  }

  /** Marshalling then unmarshalling restores the eight parameters, whatever the
      job held before. */
  lemma MarshallUnmarshall(p: ExtraParams, before: ExtraParams)
    ensures UnmarshalledExtra(EncodeParams(p), before) == Some(p)
  {
    assert EncodeParams(p)[0] == '{';
    DecodeEncodeParams(p);
  }

  /** A `params` value a fetch can unpack. */
  predicate ParamsReadable(params: string) {
    params == "" || DecodeParams(params).Some?
  }

  /** Every stored parameter text can be unpacked by a fetch. */
  predicate AllReadable(rows: seq<Row>) {
    forall k :: 0 <= k < |rows| ==> ParamsReadable(rows[k].params)
  }

  /** Two tables with the same rows' parameter texts. */
  predicate SameParams(a: seq<Row>, b: seq<Row>) {
    |a| == |b| && forall k :: 0 <= k < |a| ==> a[k].params == b[k].params
  }

  lemma ReadableKept(a: seq<Row>, b: seq<Row>)
    requires SameParams(a, b) && AllReadable(a)
    ensures AllReadable(b)
  {
    forall k | 0 <= k < |b|
      ensures ParamsReadable(b[k].params)
    {
      assert b[k].params == a[k].params;
    }
  }

  lemma ReadableAppend(a: seq<Row>, r: Row)
    requires AllReadable(a) && ParamsReadable(r.params)
    ensures AllReadable(a + [r])
  {
    forall k | 0 <= k < |a| + 1
      ensures ParamsReadable((a + [r])[k].params)
    {
      if k < |a| {
        assert (a + [r])[k] == a[k];
      }
    }
  }

  /** The defaults and bounds QueueJob applies to the run parameters. */
  function WithDefaults(v: JobValue): (r: JobValue)
    ensures r.oversampling > 0.0 && r.electrons > 0 && r.maxSteps > 0
    ensures 1 <= r.maxRuns <= 20
    ensures v.oversampling > 0.0 ==> r.oversampling == v.oversampling
    ensures v.oversampling <= 0.0 ==> r.oversampling == 3.0
    ensures v.electrons > 0 ==> r.electrons == v.electrons
    ensures v.electrons <= 0 ==> r.electrons == 10000
    ensures v.maxSteps > 0 ==> r.maxSteps == v.maxSteps
    ensures v.maxSteps <= 0 ==> r.maxSteps == 3000
    ensures 1 <= v.maxRuns <= 20 ==> r.maxRuns == v.maxRuns
    ensures !(1 <= v.maxRuns <= 20) ==> r.maxRuns == 20
    ensures r.(oversampling := v.oversampling, electrons := v.electrons,
               maxSteps := v.maxSteps, maxRuns := v.maxRuns) == v
  {
    var maxRuns := if v.maxRuns <= 0 then 20 else v.maxRuns;
    v.(oversampling := if v.oversampling <= 0.0 then 3.0 else v.oversampling,
       electrons := if v.electrons <= 0 then 10000 else v.electrons,
       maxSteps := if v.maxSteps <= 0 then 3000 else v.maxSteps,
       maxRuns := if maxRuns > 20 then 20 else maxRuns)
  }

  /** Applying the defaults twice is applying them once. */
  lemma WithDefaultsIdempotent(v: JobValue)
    ensures WithDefaults(WithDefaults(v)) == WithDefaults(v)
  {
  }

  /** The job as QueueJob leaves it before the insert: pending, stamped, with a
      fresh token, the defaults applied and the parameters packed. */
  function Queued(v: JobValue, now: Instant, random: seq<Base64Url.byte>): (r: JobValue)
    requires |random| == 9
    ensures r.statusId == StatusPending && r.submitted == Some(now)
    ensures r.task == "Not started" && r.percentComplete == 0 && r.logMessage == ""
    ensures |r.token| == 12 && forall k :: 0 <= k < 12 ==> Base64Url.IsTokenChar(r.token[k])
    ensures r.params == EncodeParams(v.extra)
  {
    var d := WithDefaults(v.(statusId := StatusPending, submitted := Some(now),
                             task := "Not started", percentComplete := 0, logMessage := "",
                             token := Base64Url.RandToken(random)));
    d.(params := EncodeParams(d.extra))
  }

  /** The job as QueueJob leaves it once the insert has given it its id. */
  function QueuedAs(v: JobValue, now: Instant, random: seq<Base64Url.byte>, id: int): (r: JobValue)
    requires |random| == 9
    ensures r.id == id && r.token == Queued(v, now, random).token
  {
    Queued(v, now, random).(id := id)
  }

  /** A queued job's token gives back the random bytes it was made from, and its
      packed parameters give back the job's parameters. */
  lemma QueuedDecodes(v: JobValue, now: Instant, random: seq<Base64Url.byte>)
    requires |random| == 9
    ensures Base64Url.Decode(Queued(v, now, random).token) == Some(random)
    ensures DecodeParams(Queued(v, now, random).params) == Some(v.extra)
  {
    Base64Url.RandTokenDecodes(random);
    DecodeEncodeParams(v.extra);
  }

  // ---------------------------------------------------------------------------
  // The job record

  /** A reference to a job: model/job.go's functions receive a `*Job` and
      assign its fields, which here replaces `state` by a record with those
      fields changed. */
  class Job {
    var state: JobValue

    /** A Job literal with the given field values. */
    constructor Of(v: JobValue)
      ensures state == v
    {
      state := v;
    }

    /** The field updates QueueJob makes before its insert. */
    method Prepare(now: Instant, random: seq<Base64Url.byte>)
      requires |random| == 9
      modifies this
      ensures state == Queued(old(state), now, random)
    {
      state := state.(statusId := StatusPending);
      state := state.(submitted := Some(now));
      state := state.(task := "Not started");
      state := state.(percentComplete := 0);
      state := state.(logMessage := "");
      state := state.(token := Base64Url.RandToken(random));
      ApplyDefaults();
      MarshallParams();
    }

    method ApplyDefaults()
      modifies this
      ensures state == WithDefaults(old(state))
    {
      if state.oversampling <= 0.0 {
        state := state.(oversampling := 3.0);
      }
      if state.electrons <= 0 {
        state := state.(electrons := 10000);
      }
      if state.maxSteps <= 0 {
        state := state.(maxSteps := 3000);
      }
      if state.maxRuns <= 0 {
        state := state.(maxRuns := 20);
      }
      if state.maxRuns > 20 {
        state := state.(maxRuns := 20);
      }
    }

    /** model/job.go MarshallParams: the eight parameters as JSON in `state.params`. */
    method MarshallParams()
      modifies this
      ensures state == old(state).(params := EncodeParams(old(state.extra)))
    {
      state := state.(params := EncodeParams(state.extra));
    }

    /** model/job.go UnmarshallParams: nothing to do for an empty `state.params`;
        otherwise the decoded parameters replace the job's, or the call fails.
        The decoder reads the layout MarshallParams writes, and a failure leaves
        the job as it was. */
    method UnmarshallParams() returns (ok: bool)
      modifies this
      ensures ok <==> UnmarshalledExtra(old(state.params), old(state.extra)).Some?
      ensures ok ==> state == old(state).(extra := UnmarshalledExtra(old(state.params), old(state.extra)).value)
      ensures !ok ==> state == old(state)
    {
      if state.params == "" {
        return true;
      }
      var p := DecodeParams(state.params);
      if p.None? {
        return false;
      }
      state := state.(extra := p.value);
      return true;
    }

    /** model/job.go URL: the job's page under the configured base URL. */
    function URL(baseUrl: string): (r: string)
      reads this
      ensures baseUrl <= r && |r| == |baseUrl| + 5 + |state.token|
      ensures r[|baseUrl|..|baseUrl| + 5] == "/job/" && r[|baseUrl| + 5..] == state.token
    {
      baseUrl + "/job/" + state.token
    }

    /** model/job.go RunTime: how long the job has been running, up to its
        completion or to `now` while it runs; "" before it starts. */
    function RunTime(relTime: (Instant, Instant) -> string, now: Instant): (r: string)
      reads this
      ensures state.started.None? ==> r == ""
      ensures r != "now"
      ensures state.started.Some? && state.completed.Some? && relTime(state.started.value, state.completed.value) != "now"
              ==> r == relTime(state.started.value, state.completed.value)
      ensures state.started.Some? && state.completed.None? && relTime(state.started.value, now) != "now"
              ==> r == relTime(state.started.value, now)
      ensures state.started.Some? && relTime(state.started.value, if state.completed.Some? then state.completed.value else now) == "now"
              ==> r == "0 seconds"
    {
      if state.started.None? then ""
      else Humanized(relTime(state.started.value, if state.completed.Some? then state.completed.value else now))
    }

    /** model/job.go WaitTime: how long the job waited before it started, or has
        waited until `now`; "" when it has no submission time. */
    function WaitTime(relTime: (Instant, Instant) -> string, now: Instant): (r: string)
      reads this
      ensures state.submitted.None? ==> r == ""
      ensures r != "now"
      ensures state.submitted.Some? && state.started.Some? && relTime(state.submitted.value, state.started.value) != "now"
              ==> r == relTime(state.submitted.value, state.started.value)
      ensures state.submitted.Some? && state.started.None? && relTime(state.submitted.value, now) != "now"
              ==> r == relTime(state.submitted.value, now)
      ensures state.submitted.Some? && relTime(state.submitted.value, if state.started.Some? then state.started.value else now) == "now"
              ==> r == "0 seconds"
    {
      if state.submitted.None? then ""
      else Humanized(relTime(state.submitted.value, if state.started.Some? then state.started.value else now))
    }
  }

  /** humanize's "now" is reported as "0 seconds". */
  function Humanized(s: string): string {
    if s == "now" then "0 seconds" else s
  }

  /** Two jobs with the same page URL have the same token. */
  lemma URLDeterminesToken(a: Job, b: Job, baseUrl: string)
    requires a.URL(baseUrl) == b.URL(baseUrl)
    ensures a.state.token == b.state.token
  {
    assert a.state.token == a.URL(baseUrl)[|baseUrl| + 5..];
  }

  // ---------------------------------------------------------------------------
  // Claiming the oldest pending job

  /** `a` sorts strictly before `b` in ascending order, NULL first. */
  predicate Earlier(a: Option<Instant>, b: Option<Instant>) {
    b.Some? && (a.None? || a.value < b.value)
  }

  /** The row `where status_id = 1 order by submitted asc limit 1` selects: a
      pending row with the earliest submission time. SQL leaves the choice among
      equal times open; this model takes the first of them in table order. */
  function OldestPending(rows: seq<Row>): (r: Option<nat>)
    ensures r.Some? ==> r.value < |rows| && rows[r.value].statusId == StatusPending
  {
    if rows == [] then None
    else
      var last := |rows| - 1;
      var pending := rows[last].statusId == StatusPending;
      match OldestPending(rows[..last])
      case None => if pending then Some(last) else None
      case Some(i) =>
        if pending && Earlier(rows[last].submitted, rows[i].submitted) then Some(last) else Some(i)
  }

  /** OldestPending finds a row iff one is pending; no pending row was submitted
      before it, and every pending row before it was submitted later. */
  lemma {:induction false} OldestPendingSpec(rows: seq<Row>)
    ensures OldestPending(rows).None? <==> forall k :: 0 <= k < |rows| ==> rows[k].statusId != StatusPending
    ensures OldestPending(rows).Some? ==>
      var i := OldestPending(rows).value;
      && (forall k :: 0 <= k < |rows| && rows[k].statusId == StatusPending ==> !Earlier(rows[k].submitted, rows[i].submitted))
      && (forall k :: 0 <= k < i && rows[k].statusId == StatusPending ==> Earlier(rows[i].submitted, rows[k].submitted))
  {
    if rows != [] {
      var last := |rows| - 1;
      var init := rows[..last];
      OldestPendingSpec(init);
      assert forall k :: 0 <= k < last ==> init[k] == rows[k];
    }
  }

  /** The pending rows, by index. */
  function PendingSet(rows: seq<Row>): set<nat> {
    set k | 0 <= k < |rows| && rows[k].statusId == StatusPending
  }

  /** Claiming a row takes it, and only it, out of the pending rows, so it is
      never claimed again while no one sets it back to pending. */
  lemma ClaimLeavesPending(rows: seq<Row>, i: nat, now: Instant)
    requires OldestPending(rows) == Some(i)
    ensures var after := Started(rows, i, now);
      PendingSet(after) == PendingSet(rows) - {i} && OldestPending(after) != Some(i)
  {
  }

  /** The job FetchNextPending hands out for row `i`: the selected columns with
      the parameters unpacked, running from `now`; None when the parameters do
      not unpack. */
  function Claimed(rows: seq<Row>, i: nat, now: Instant): (r: Option<JobValue>)
    requires i < |rows|
    ensures r.Some? ==> r.value.id == i + 1 && r.value.statusId == StatusRunning
                        && r.value.started == Some(now) && r.value.token == rows[i].token
                        && r.value.inputData == rows[i].inputData
  {
    var v := PendingView(i + 1, rows[i]);
    match UnmarshalledExtra(v.params, v.extra)
    case None => None
    case Some(e) => Some(v.(extra := e, statusId := StatusRunning, status := "Running", started := Some(now)))
  }

  /** A table whose parameter texts all unpack never fails a claim on them. */
  lemma ClaimedReadable(rows: seq<Row>, i: nat, now: Instant)
    requires AllReadable(rows) && i < |rows|
    ensures Claimed(rows, i, now).Some?
  {
    assert ParamsReadable(rows[i].params);
  }

  /** FetchNextPending's update of the claimed row: running, from `now`. */
  function Started(rows: seq<Row>, i: nat, now: Instant): (r: seq<Row>)
    requires i < |rows|
    ensures SameParams(rows, r)
  {
    rows[i := rows[i].(statusId := StatusRunning, started := Some(now))]
  }

  // ---------------------------------------------------------------------------
  // Listing

  datatype TimeColumn = BySubmitted | ByStarted | ByCompleted

  /** The column FetchAllJobs sorts on for a status filter. */
  function OrderColumn(status: int): TimeColumn {
    if status > 0 then
      if status == StatusComplete then ByCompleted
      else if status == StatusRunning then ByStarted
      else if status == StatusError then ByCompleted
      else BySubmitted
    else BySubmitted
  }

  function TimeOf(r: Row, c: TimeColumn): Option<Instant> {
    match c
    case BySubmitted => r.submitted
    case ByStarted => r.started
    case ByCompleted => r.completed
  }

  /** The time of row `i`, or NULL past the end of the table. */
  function TimeAt(rows: seq<Row>, c: TimeColumn, i: nat): Option<Instant> {
    if i < |rows| then TimeOf(rows[i], c) else None
  }

  /** `a` may be listed before `b` in descending order, NULL last. */
  predicate AtLeast(a: Option<Instant>, b: Option<Instant>) {
    b.None? || (a.Some? && a.value >= b.value)
  }

  /** A row FetchAllJobs can return for `status`: the inner join with job_status
      drops a row whose status id has no job_status row (only ids 1 to 4 have
      one), and a positive status keeps that status only. */
  predicate Listed(r: Row, status: int) {
    KnownStatus(r.statusId) && (status <= 0 || r.statusId == status)
  }

  /** The indices, ascending, of the rows among the first `n` that the status
      filter keeps. */
  function Matching(rows: seq<Row>, status: int, n: nat): (r: seq<nat>)
    requires n <= |rows|
    ensures |r| <= n
  {
    if n == 0 then []
    else
      var m := Matching(rows, status, n - 1);
      if Listed(rows[n - 1], status) then m + [n - 1] else m
  }

  /** Matching holds exactly the kept rows among the first `n`, in ascending order. */
  lemma {:induction false} MatchingSpec(rows: seq<Row>, status: int, n: nat)
    requires n <= |rows|
    ensures var r := Matching(rows, status, n);
      && (forall k :: 0 <= k < |r| ==> r[k] < n && Listed(rows[r[k]], status))
      && (forall k :: 0 <= k < n && Listed(rows[k], status) ==> k in r)
      && (forall a, b :: 0 <= a < b < |r| ==> r[a] < r[b])
  {
    if n > 0 {
      MatchingSpec(rows, status, n - 1);
      var m := Matching(rows, status, n - 1);
      if Listed(rows[n - 1], status) {
        var r := m + [n - 1];
        assert forall k :: 0 <= k < |m| ==> r[k] == m[k];
      }
    }
  }

  /** Inserts `i` after every index whose time is at least its own. */
  function InsertDesc(rows: seq<Row>, c: TimeColumn, i: nat, s: seq<nat>): (r: seq<nat>)
    ensures |r| == |s| + 1
  {
    if s == [] then [i]
    else if !AtLeast(TimeAt(rows, c, s[0]), TimeAt(rows, c, i)) then [i] + s
    else [s[0]] + InsertDesc(rows, c, i, s[1..])
  }

  /** Sorts indices by descending time, NULL last. SQL leaves the order of equal
      times open; this model keeps them in their order in `s`. */
  function SortDesc(rows: seq<Row>, c: TimeColumn, s: seq<nat>): (r: seq<nat>)
    ensures |r| == |s|
  {
    if s == [] then []
    else InsertDesc(rows, c, s[|s| - 1], SortDesc(rows, c, s[..|s| - 1]))
  }

  /** Inserting adds `i` and nothing else. */
  lemma {:induction false} InsertDescPerm(rows: seq<Row>, c: TimeColumn, i: nat, s: seq<nat>)
    ensures multiset(InsertDesc(rows, c, i, s)) == multiset(s) + multiset{i}
  {
    if s != [] && AtLeast(TimeAt(rows, c, s[0]), TimeAt(rows, c, i)) {
      InsertDescPerm(rows, c, i, s[1..]);
      assert s == [s[0]] + s[1..];
    }
  }

  /** Sorting rearranges the indices. */
  lemma {:induction false} SortDescPerm(rows: seq<Row>, c: TimeColumn, s: seq<nat>)
    ensures multiset(SortDesc(rows, c, s)) == multiset(s)
  {
    if s != [] {
      var init := s[..|s| - 1];
      SortDescPerm(rows, c, init);
      InsertDescPerm(rows, c, s[|s| - 1], SortDesc(rows, c, init));
      assert s == init + [s[|s| - 1]];
    }
  }

  predicate SortedDesc(rows: seq<Row>, c: TimeColumn, s: seq<nat>) {
    forall k :: 0 <= k < |s| - 1 ==> AtLeast(TimeAt(rows, c, s[k]), TimeAt(rows, c, s[k + 1]))
  }

  lemma {:induction false} InsertDescSorted(rows: seq<Row>, c: TimeColumn, i: nat, s: seq<nat>)
    requires SortedDesc(rows, c, s)
    ensures SortedDesc(rows, c, InsertDesc(rows, c, i, s))
    ensures s != [] ==> InsertDesc(rows, c, i, s)[0] == i || InsertDesc(rows, c, i, s)[0] == s[0]
  {
    if s != [] && AtLeast(TimeAt(rows, c, s[0]), TimeAt(rows, c, i)) {
      var t := s[1..];
      assert SortedDesc(rows, c, t);
      InsertDescSorted(rows, c, i, t);
    }
  }

  lemma {:induction false} SortDescSorted(rows: seq<Row>, c: TimeColumn, s: seq<nat>)
    ensures SortedDesc(rows, c, SortDesc(rows, c, s))
  {
    if s != [] {
      SortDescSorted(rows, c, s[..|s| - 1]);
      InsertDescSorted(rows, c, s[|s| - 1], SortDesc(rows, c, s[..|s| - 1]));
    }
  }

  /** SQLite's `limit ? offset ?`: a negative offset counts as none and a
      negative limit as no limit. */
  function Window<T>(s: seq<T>, limit: int, offset: int): (r: seq<T>)
    ensures var o := if offset < 0 then 0 else if offset > |s| then |s| else offset;
      && (limit >= 0 ==> |r| == if limit < |s| - o then limit else |s| - o)
      && (limit < 0 ==> |r| == |s| - o)
  {
    var o := if offset < 0 then 0 else if offset > |s| then |s| else offset;
    var rest := s[o..];
    if limit < 0 || limit > |rest| then rest else rest[..limit]
  }

  /** The window is the run of `s` that starts at the offset. */
  lemma WindowElements<T>(s: seq<T>, limit: int, offset: int)
    ensures var o := if offset < 0 then 0 else if offset > |s| then |s| else offset;
      var w := Window(s, limit, offset);
      o + |w| <= |s| && w == s[o..o + |w|]
  {
  }

  /** The row indices FetchAllJobs returns, in order. */
  function Listing(rows: seq<Row>, status: int, limit: int, offset: int): seq<nat> {
    var c := OrderColumn(status);
    Window(SortDesc(rows, c, Matching(rows, status, |rows|)), limit, offset)
  }

  predicate Distinct(s: seq<nat>) {
    forall a, b :: 0 <= a < b < |s| ==> s[a] != s[b]
  }

  /** Every index names a row the status filter keeps. */
  predicate KeptRows(rows: seq<Row>, status: int, s: seq<nat>) {
    forall k :: 0 <= k < |s| ==> s[k] < |rows| && Listed(rows[s[k]], status)
  }

  /** Strictly increasing indices occur once each. */
  lemma {:induction false} IncreasingCountsOnce(s: seq<nat>)
    requires forall a, b :: 0 <= a < b < |s| ==> s[a] < s[b]
    ensures forall x :: multiset(s)[x] <= 1
  {
    if s != [] {
      var t := s[1..];
      IncreasingCountsOnce(t);
      assert s == [s[0]] + t;
      assert s[0] !in t;
    }
  }

  /** A sequence in which every value occurs at most once has no repeats. */
  lemma CountsOnceDistinct(s: seq<nat>)
    requires forall x :: multiset(s)[x] <= 1
    ensures Distinct(s)
  {
    forall a, b | 0 <= a < b < |s|
      ensures s[a] != s[b]
    {
      assert s == s[..b] + s[b..];
      assert multiset(s) == multiset(s[..b]) + multiset(s[b..]);
      var x := s[a];
      assert x in s[..b];
      assert multiset(s[..b])[x] >= 1;
      assert multiset(s)[x] <= 1;
      assert multiset(s[b..])[x] == 0;
      assert s[b] in s[b..];
    }
  }

  /** The sorted indices: each kept row exactly once, in descending time order. */
  lemma SortedMatching(rows: seq<Row>, status: int, c: TimeColumn)
    ensures var sorted := SortDesc(rows, c, Matching(rows, status, |rows|));
      && KeptRows(rows, status, sorted) && Distinct(sorted) && SortedDesc(rows, c, sorted)
      && forall k :: 0 <= k < |rows| && Listed(rows[k], status) ==> k in sorted
  {
    var m := Matching(rows, status, |rows|);
    var sorted := SortDesc(rows, c, m);
    MatchingSpec(rows, status, |rows|);
    SortDescPerm(rows, c, m);
    SortDescSorted(rows, c, m);
    PermutedKept(rows, status, m, sorted);
    IncreasingCountsOnce(m);
    CountsOnceDistinct(sorted);
    PermutedComplete(rows, status, m, sorted);
  }

  /** A rearrangement of kept indices holds kept indices. */
  lemma PermutedKept(rows: seq<Row>, status: int, m: seq<nat>, p: seq<nat>)
    requires multiset(p) == multiset(m)
    requires forall k :: 0 <= k < |m| ==> m[k] < |rows| && Listed(rows[m[k]], status)
    ensures KeptRows(rows, status, p)
  {
    forall j | 0 <= j < |p|
      ensures p[j] < |rows| && Listed(rows[p[j]], status)
    {
      assert p[j] in multiset(m);
    }
  }

  /** A rearrangement of a sequence holding every kept index holds them too. */
  lemma PermutedComplete(rows: seq<Row>, status: int, m: seq<nat>, p: seq<nat>)
    requires multiset(p) == multiset(m)
    requires forall k :: 0 <= k < |rows| && Listed(rows[k], status) ==> k in m
    ensures forall k :: 0 <= k < |rows| && Listed(rows[k], status) ==> k in p
  {
    forall k | 0 <= k < |rows| && Listed(rows[k], status)
      ensures k in p
    {
      assert k in multiset(p);
    }
  }

  /** A window of a sequence keeps what holds of every element and of every
      pair of neighbours. */
  lemma WindowKeeps(rows: seq<Row>, status: int, c: TimeColumn, s: seq<nat>, limit: int, offset: int)
    requires KeptRows(rows, status, s) && Distinct(s) && SortedDesc(rows, c, s)
    ensures var w := Window(s, limit, offset);
      KeptRows(rows, status, w) && Distinct(w) && SortedDesc(rows, c, w)
    ensures limit < 0 && offset <= 0 ==> Window(s, limit, offset) == s
  {
    var w := Window(s, limit, offset);
    var o := if offset < 0 then 0 else if offset > |s| then |s| else offset;
    WindowElements(s, limit, offset);
    assert forall k :: 0 <= k < |w| ==> w[k] == s[o + k];
    forall k | 0 <= k < |w| - 1
      ensures AtLeast(TimeAt(rows, c, w[k]), TimeAt(rows, c, w[k + 1]))
    {
      assert w[k] == s[o + k] && w[k + 1] == s[o + k + 1];
    }
  }

  /** The listing names rows of the table that the status filter keeps. */
  lemma ListingKeptRows(rows: seq<Row>, status: int, limit: int, offset: int)
    ensures KeptRows(rows, status, Listing(rows, status, limit, offset))
  {
    ListingMeaning(rows, status, limit, offset);
  }

  /** A row whose status id has no job_status row is never listed, whatever the
      filter and the window. */
  lemma UnknownStatusNotListed(rows: seq<Row>, status: int, limit: int, offset: int, k: nat)
    requires k < |rows| && !KnownStatus(rows[k].statusId)
    ensures k !in Listing(rows, status, limit, offset)
  {
    ListingMeaning(rows, status, limit, offset);
  }

  /** The listing holds rows of the requested status only, each once, in
      descending order of the status's time column; with no window it holds
      every such row. */
  lemma ListingMeaning(rows: seq<Row>, status: int, limit: int, offset: int)
    ensures var ids := Listing(rows, status, limit, offset);
      && KeptRows(rows, status, ids) && Distinct(ids)
      && SortedDesc(rows, OrderColumn(status), ids)
      && (limit < 0 && offset <= 0 ==>
            forall k :: 0 <= k < |rows| && Listed(rows[k], status) ==> k in ids)
  {
    var c := OrderColumn(status);
    SortedMatching(rows, status, c);
    WindowKeeps(rows, status, c, SortDesc(rows, c, Matching(rows, status, |rows|)), limit, offset);
  }

  // ---------------------------------------------------------------------------
  // The job table

  /** What the database does with a statement: the transaction cannot be opened,
      the statement fails, or both succeed. */
  datatype DbFault = NoFault | BeginFails | ExecFails

  datatype FetchError = BeginFailed | NoRows | BadParams | ExecFailed

  /** CompleteJob's update of the job's row, when the table has it. */
  function Completed(rows: seq<Row>, v: JobValue): (r: seq<Row>)
    ensures SameParams(rows, r)
  {
    if 1 <= v.id <= |rows| then
      var r := rows[v.id - 1];
      rows[v.id - 1 := r.(statusId := v.statusId, densityMap := v.densityMap,
                          fscChart := v.fscChart, summaryChart := v.summaryChart,
                          rawData := v.rawData, completed := v.completed)]
    else rows
  }

  /** LogJobMessage's update of the job's row, when the table has it. */
  function Logged(rows: seq<Row>, v: JobValue): (r: seq<Row>)
    ensures SameParams(rows, r)
  {
    if 1 <= v.id <= |rows| then
      var r := rows[v.id - 1];
      rows[v.id - 1 := r.(task := v.task, logMessage := v.logMessage,
                          percentComplete := v.percentComplete)]
    else rows
  }

  class JobStore {
    var rows: seq<Row>

    /** Every stored parameter text can be unpacked by a fetch. */
    predicate Valid()
      reads this
    {
      AllReadable(rows)
    }

    constructor ()
      ensures rows == [] && Valid()
    {
      rows := [];
    }

    /** model/job.go QueueJob: marks the job pending and stamps it, gives it a
        token made from nine random bytes, applies the parameter defaults, packs
        the parameters and inserts it; the new row's id becomes the job's. */
    method QueueJob(job: Job, now: Instant, random: seq<Base64Url.byte>, fault: DbFault) returns (ok: bool)
      requires |random| == 9
      modifies this, job
      ensures ok <==> fault == NoFault
      ensures fault == BeginFails ==> job.state == old(job.state) && rows == old(rows)
      ensures fault == ExecFails ==> job.state == Queued(old(job.state), now, random) && rows == old(rows)
      ensures fault == NoFault ==>
        && job.state == QueuedAs(old(job.state), now, random, |old(rows)| + 1)
        && rows == old(rows) + [Inserted(job.state)]
      ensures old(Valid()) ==> Valid()
    {
      if fault == BeginFails {
        return false;
      }
      ghost var before := job.state;
      job.Prepare(now, random);
      if fault == ExecFails {
        return false;
      }
      ghost var table := rows;
      rows := rows + [Inserted(job.state)];
      if AllReadable(table) {
        DecodeEncodeParams(before.extra);
        ReadableAppend(table, Inserted(job.state));
      }
      ghost var queued := job.state;
      job.state := job.state.(id := |rows|);
      assert job.state == queued.(id := |table| + 1);
      assert Inserted(job.state) == Inserted(queued);
      ok := true;
    }

    /** model/job.go FetchNextPending: loads the oldest pending job, unpacks its
        parameters, marks it running from `now` and writes the new status and
        start time to its row. */
    method FetchNextPending(now: Instant, fault: DbFault) returns (r: Result<Job, FetchError>)
      modifies this
      ensures fault == BeginFails ==> r == Failure(BeginFailed) && rows == old(rows)
      ensures fault != BeginFails && OldestPending(old(rows)).None? ==> r == Failure(NoRows) && rows == old(rows)
      ensures fault != BeginFails && OldestPending(old(rows)).Some? ==>
        var i := OldestPending(old(rows)).value;
        match Claimed(old(rows), i, now)
        case None => r == Failure(BadParams) && rows == old(rows)
        case Some(v) =>
          && (fault == ExecFails ==> r == Failure(ExecFailed) && rows == old(rows))
          && (fault == NoFault ==>
                r.Success? && fresh(r.value) && r.value.state == v && rows == Started(old(rows), i, now))
      ensures old(Valid()) ==> r != Failure(BadParams) && Valid()
    {
      if fault == BeginFails {
        return Failure(BeginFailed);
      }
      var found := OldestPending(rows);
      if found.None? {
        return Failure(NoRows);
      }
      var i := found.value;
      if Valid() {
        ClaimedReadable(rows, i, now);
      }
      var job := new Job.Of(PendingView(i + 1, rows[i]));
      var unpacked := job.UnmarshallParams();
      if !unpacked {
        return Failure(BadParams);
      }
      job.state := job.state.(statusId := StatusRunning, status := "Running", started := Some(now));
      if fault == ExecFails {
        return Failure(ExecFailed);
      }
      ghost var before := rows;
      rows := Started(rows, i, job.state.started.value);
      if AllReadable(before) {
        ReadableKept(before, rows);
      }
      return Success(job);
    }

    /** model/job.go CompleteJob: gives the job the supplied status, whatever it
        was, stamps its completion and writes the status, the four result blobs
        and the completion time to its row. */
    method CompleteJob(job: Job, statusId: int, now: Instant, fault: DbFault) returns (ok: bool)
      modifies this, job
      ensures ok <==> fault == NoFault
      ensures fault == BeginFails ==> job.state == old(job.state) && rows == old(rows)
      ensures fault != BeginFails ==>
        job.state == old(job.state).(statusId := statusId, completed := Some(now))
      ensures fault == ExecFails ==> rows == old(rows)
      ensures fault == NoFault ==> rows == Completed(old(rows), job.state)
      ensures old(Valid()) ==> Valid()
    {
      if fault == BeginFails {
        return false;
      }
      job.state := job.state.(statusId := statusId);
      job.state := job.state.(completed := Some(now));
      if fault == ExecFails {
        return false;
      }
      ghost var before := rows;
      rows := Completed(rows, job.state);
      if AllReadable(before) {
        ReadableKept(before, rows);
      }
      return true;
    }

    /** model/job.go LogJobMessage: records the task, the message and the percent
        complete (unchecked) on the job and on its row, and nothing else. */
    method LogJobMessage(job: Job, task: string, message: string, percent: int, fault: DbFault) returns (ok: bool)
      modifies this, job
      ensures ok <==> fault == NoFault
      ensures fault == BeginFails ==> job.state == old(job.state) && rows == old(rows)
      ensures fault != BeginFails ==>
        job.state == old(job.state).(task := task, logMessage := message, percentComplete := percent)
      ensures fault == ExecFails ==> rows == old(rows)
      ensures fault == NoFault ==> rows == Logged(old(rows), job.state)
      ensures old(Valid()) ==> Valid()
    {
      if fault == BeginFails {
        return false;
      }
      job.state := job.state.(task := task);
      job.state := job.state.(logMessage := message);
      job.state := job.state.(percentComplete := percent);
      if fault == ExecFails {
        return false;
      }
      ghost var before := rows;
      rows := Logged(rows, job.state);
      if AllReadable(before) {
        ReadableKept(before, rows);
      }
      return true;
    }

    /** model/job.go FetchAllJobs: the jobs of one status (of every status when
        `status` is not positive), newest first by the time that status is
        about, through SQLite's limit and offset; ListingMeaning states what
        the listing holds. */
    method FetchAllJobs(status: int, limit: int, offset: int) returns (jobs: seq<JobValue>)
      ensures var ids := Listing(rows, status, limit, offset);
        && |jobs| == |ids|
        && forall k :: 0 <= k < |jobs| ==> ids[k] < |rows| && jobs[k] == ListView(ids[k] + 1, rows[ids[k]])
      ensures forall k :: 0 <= k < |jobs| ==> 1 <= jobs[k].id <= |rows|
      ensures status > 0 ==> forall k :: 0 <= k < |jobs| ==> jobs[k].statusId == status
    {
      var table := rows;
      var ids := Listing(table, status, limit, offset);
      ListingKeptRows(table, status, limit, offset);
      jobs := [];
      var j := 0;
      while j < |ids|
        invariant j <= |ids| && |jobs| == j
        invariant forall k :: 0 <= k < j ==> jobs[k] == ListView(ids[k] + 1, table[ids[k]])
      {
        jobs := jobs + [ListView(ids[j] + 1, table[ids[j]])];
        j := j + 1;
      }
    }
  }
}
