/** `SearchProgress` and `SearchWorker` of `src/core/search_worker.py`: the
    progress counters of a search, and the search itself — listing the date
    directories and their XML files into tasks, searching each file and
    folding the results into the counters.  The thread pool only schedules
    the file searches; the model runs them in one order, each followed by
    the collection of its result.  A concurrent `stop()` is an input: the
    number of the first stop-flag check that sees the flag set. */
module SearchWorker {
  import opened Wrappers
  import opened Text
  import opened SearchEngine
  import XPath
  import opened FtpListing
  import opened FtpManager
  import opened FtpPool

  /** `MAX_FILE_SIZE_MB` of `config/settings.py`, and the size in bytes above
      which a file is skipped. */
  const MaxFileSizeMb: nat := 50
  const MaxFileSize: nat := MaxFileSizeMb * 1024 * 1024

  // ---------------------------------------------------------------------------
  // Progress

  /** The dictionary `get_status` returns; times are whole seconds. */
  datatype Status = Status(
    directoriesProcessed: nat,
    directoriesTotal: nat,
    filesProcessed: nat,
    filesTotal: nat,
    matchesFound: nat,
    currentDirectory: string,
    currentFile: string,
    elapsedTime: int,
    errorsCount: nat)

  /** All fields of a `SearchProgress` at one moment. */
  datatype Snapshot = Snapshot(
    directoriesTotal: nat,
    directoriesProcessed: nat,
    filesTotal: nat,
    filesProcessed: nat,
    matchesFound: nat,
    currentDirectory: string,
    currentFile: string,
    startTime: Option<int>,
    errors: seq<string>)

  /** The status a snapshot reports at time `now`: no elapsed time before the
      totals are set (a start time of 0 is falsy as well). */
  function StatusOf(p: Snapshot, now: int): (s: Status)
    ensures s.errorsCount == |p.errors|
    ensures (p.startTime.None? || p.startTime == Some(0)) ==> s.elapsedTime == 0
    ensures p.startTime.Some? && p.startTime != Some(0) ==> s.elapsedTime == now - p.startTime.value
    ensures s.filesProcessed == p.filesProcessed && s.filesTotal == p.filesTotal
    ensures s.directoriesProcessed == p.directoriesProcessed && s.directoriesTotal == p.directoriesTotal
    ensures s.matchesFound == p.matchesFound
    ensures s.currentDirectory == p.currentDirectory && s.currentFile == p.currentFile
  {
    Status(p.directoriesProcessed, p.directoriesTotal, p.filesProcessed, p.filesTotal, p.matchesFound,
           p.currentDirectory, p.currentFile,
           if p.startTime.Some? && p.startTime.value != 0 then now - p.startTime.value else 0,
           |p.errors|)
  }

  /** A progress tracker's status before `set_totals` reports no elapsed time,
      whenever it is asked. */
  lemma NoElapsedBeforeTotals(now1: int, now2: int)
    ensures StatusOf(Initial(), now1) == StatusOf(Initial(), now2)
    ensures StatusOf(Initial(), now1).elapsedTime == 0
  {
  }

  /** The state of a new `SearchProgress`. */
  function Initial(): (p: Snapshot)
    ensures p.startTime.None? && p.errors == []
  {
    Snapshot(0, 0, 0, 0, 0, "", "", None, [])
  }

  class SearchProgress {
    var directoriesTotal: nat
    var directoriesProcessed: nat
    var filesTotal: nat
    var filesProcessed: nat
    var matchesFound: nat
    var currentDirectory: string
    var currentFile: string
    var startTime: Option<int>
    var errors: seq<string>

    function State(): Snapshot
      reads this
    {
      Snapshot(directoriesTotal, directoriesProcessed, filesTotal, filesProcessed, matchesFound,
               currentDirectory, currentFile, startTime, errors)
    }

    constructor()
      ensures State() == Initial()
    {
      directoriesTotal := 0;
      directoriesProcessed := 0;
      filesTotal := 0;
      filesProcessed := 0;
      matchesFound := 0;
      currentDirectory := "";
      currentFile := "";
      startTime := None;
      errors := [];
    }

    /** `set_totals`, at time `now`. */
    method SetTotals(directories: nat, files: nat, now: int)
      modifies this
      ensures State() == old(State()).(directoriesTotal := directories, filesTotal := files, startTime := Some(now))
    {
      directoriesTotal := directories;
      filesTotal := files;
      startTime := Some(now);
    }

    /** `update_directory`. */
    method UpdateDirectory(directory: string)
      modifies this
      ensures State() == old(State()).(currentDirectory := directory,
                                       directoriesProcessed := old(directoriesProcessed) + 1)
    {
      currentDirectory := directory;
      directoriesProcessed := directoriesProcessed + 1;
    }

    /** `update_file`. */
    method UpdateFile(filename: string)
      modifies this
      ensures State() == old(State()).(currentFile := filename, filesProcessed := old(filesProcessed) + 1)
    {
      currentFile := filename;
      filesProcessed := filesProcessed + 1;
    }

    /** `add_match`. */
    method AddMatch()
      modifies this
      ensures State() == old(State()).(matchesFound := old(matchesFound) + 1)
    {
      matchesFound := matchesFound + 1;
    }

    /** `add_error`. */
    method AddError(error: string)
      modifies this
      ensures State() == old(State()).(errors := old(errors) + [error])
    {
      errors := errors + [error];
    }

    /** `get_status`, at time `now`. */
    method GetStatus(now: int) returns (s: Status)
      ensures s == StatusOf(State(), now)
    {
      var elapsed := if startTime.Some? && startTime.value != 0 then now - startTime.value else 0;
      s := Status(directoriesProcessed, directoriesTotal, filesProcessed, filesTotal, matchesFound,
                  currentDirectory, currentFile, elapsed, |errors|);
    }
  }

  // ---------------------------------------------------------------------------
  // Engines

  datatype Engine =
    | TextMode(text: TextEngine)
    | XPathMode(xpath: XPath.XPathEngine)

  /** `_create_search_engine`: `"xpath"` builds the XPath engine, `"regex"`
      the text engine with regular expressions, anything else the literal
      text engine.  Construction fails when every keyword is blank. */
  function CreateSearchEngine(keywords: seq<string>, mode: string, caseSensitive: bool, lib: RegexLib)
    : (r: Result<Engine>)
    ensures r.Err? <==> forall i :: 0 <= i < |keywords| ==> Strip(keywords[i]) == []
    ensures r.Err? ==> r.error == (if mode == "xpath" then "At least one XPath expression is required"
                                   else "At least one keyword is required")
    ensures r.Ok? ==> (r.value.XPathMode? <==> mode == "xpath")
    ensures r.Ok? && r.value.XPathMode? ==> r.value.xpath.expressions == CleanKeywords(keywords)
    ensures r.Ok? && r.value.TextMode? ==>
      r.value.text.useRegex == (mode == "regex") && r.value.text.caseSensitive == caseSensitive
      && |r.value.text.keywords| == |CleanKeywords(keywords)|
  {
    if mode == "xpath" then
      match XPath.NewXPathEngine(keywords)
      case Ok(x) => Ok(XPathMode(x))
      case Err(msg) => Err(msg)
    else
      match NewTextEngine(keywords, caseSensitive, mode == "regex", lib)
      case Ok(e) => Ok(TextMode(e))
      case Err(msg) => Err(msg)
  }

  /** What an engine reports for a downloaded file: the text engine reads the
      content in default-sized windows, the XPath engine the parser's end
      events; a transfer that breaks off reports nothing. */
  function EngineOutcome(engine: Engine, file: RemoteFile, dateDir: string, filename: string)
    : Option<SearchResult>
  {
    match engine
    case TextMode(e) =>
      if file.transferFails then None
      else Scan(ChunkSearcher(e, dateDir, filename), Concat(file.chunks), 1, DefaultChunkSize, ChunkOverlapSize)
    case XPathMode(x) => XPath.XPathOutcome(x, file.events, file.transferFails, dateDir, filename)
  }

  /** A transfer that breaks off reports nothing, and a result names the
      searched file. */
  lemma EngineOutcomeStamps(engine: Engine, file: RemoteFile, dateDir: string, filename: string)
    ensures file.transferFails ==> EngineOutcome(engine, file, dateDir, filename).None?
    ensures var r := EngineOutcome(engine, file, dateDir, filename);
      r.Some? ==> r.value.dateDir == dateDir && r.value.filename == filename
  {
    if engine.TextMode? && !file.transferFails {
      ScanStamps(engine.text, Concat(file.chunks), 1, dateDir, filename, DefaultChunkSize, ChunkOverlapSize);
    }
  }

  // ---------------------------------------------------------------------------
  // Tasks

  /** A file to search: `(date_dir, filename, file_size)`. */
  datatype Task = Task(dateDir: string, filename: string, size: nat)

  /** The tasks one directory's listing contributes, in listing order. */
  function TasksIn(dateDir: string, files: seq<(string, nat)>): (ts: seq<Task>)
    decreases |files|
  {
    if files == [] then []
    else
      var f := files[|files| - 1];
      TasksIn(dateDir, files[..|files| - 1]) + (if f.1 > MaxFileSize then [] else [Task(dateDir, f.0, f.1)])
  }

  /** The tasks of directories listed in order, `listed[i]` being the
      listing of `dirs[i]`. */
  function TasksOf(dirs: seq<string>, listed: seq<seq<(string, nat)>>): (ts: seq<Task>)
    requires |dirs| == |listed|
    decreases |dirs|
  {
    if dirs == [] then []
    else TasksOf(dirs[..|dirs| - 1], listed[..|listed| - 1]) + TasksIn(dirs[|dirs| - 1], listed[|listed| - 1])
  }

  /** A directory contributes exactly its files no larger than the cutoff. */
  lemma {:induction false} TasksInMembers(dateDir: string, files: seq<(string, nat)>, t: Task)
    ensures t in TasksIn(dateDir, files) <==>
      t.dateDir == dateDir && t.size <= MaxFileSize && (t.filename, t.size) in files
    decreases |files|
  {
    if files != [] {
      var init := files[..|files| - 1];
      TasksInMembers(dateDir, init, t);
      assert files == init + [files[|files| - 1]];
    }
  }

  /** Tasks follow directory order: the tasks of a list of directories are
      those of its first part followed by those of the rest. */
  lemma {:induction false} TasksOfAppend(dirs1: seq<string>, listed1: seq<seq<(string, nat)>>,
                                         dirs2: seq<string>, listed2: seq<seq<(string, nat)>>)
    requires |dirs1| == |listed1| && |dirs2| == |listed2|
    ensures TasksOf(dirs1 + dirs2, listed1 + listed2) == TasksOf(dirs1, listed1) + TasksOf(dirs2, listed2)
    decreases |dirs2|
  {
    if dirs2 != [] {
      var d2 := dirs2[..|dirs2| - 1];
      var l2 := listed2[..|listed2| - 1];
      assert (dirs1 + dirs2)[..|dirs1 + dirs2| - 1] == dirs1 + d2;
      assert (listed1 + listed2)[..|listed1 + listed2| - 1] == listed1 + l2;
      TasksOfAppend(dirs1, listed1, d2, l2);
    } else {
      assert dirs1 + dirs2 == dirs1;
      assert listed1 + listed2 == listed1;
    }
  }

  /** The file loop of a task-building step: the tasks of one directory's
      files, in order. */
  method CollectTasks(dateDir: string, files: seq<(string, nat)>) returns (found: seq<Task>)
    ensures found == TasksIn(dateDir, files)
  {
    found := [];
    var k := 0;
    while k < |files|
      invariant 0 <= k <= |files|
      invariant found == TasksIn(dateDir, files[..k])
    {
      assert files[..k + 1][..k] == files[..k];
      if files[k].1 <= MaxFileSize {
        found := found + [Task(dateDir, files[k].0, files[k].1)];
      }
      k := k + 1;
    }
    assert files[..k] == files;
  }

  /** One more listed directory appends its tasks. */
  lemma TasksOfStep(dirs: seq<string>, listed: seq<seq<(string, nat)>>, files: seq<(string, nat)>)
    requires |listed| < |dirs|
    ensures var i := |listed|;
      TasksOf(dirs[..i + 1], listed + [files]) == TasksOf(dirs[..i], listed) + TasksIn(dirs[i], files)
  {
    var i := |listed|;
    var d, l := dirs[..i + 1], listed + [files];
    assert d[..i] == dirs[..i] && d[i] == dirs[i];
    assert l[..i] == listed && l[i] == files;
    assert TasksOf(d, l) == TasksOf(d[..i], l[..i]) + TasksIn(d[i], l[i]);
  }

  /** The listings `list_xml_files` gives for directories when every
      request is granted. */
  function XmlListings(server: Server, dirs: seq<string>, pattern: string): seq<seq<(string, nat)>> {
    seq(|dirs|, i requires 0 <= i < |dirs| => XmlFilesOutcome(server, dirs[i], pattern, "", ""))
  }

  /** Listings that are each empty or the directory's files give tasks
      among those of all the directories' files. */
  lemma {:induction false} ListedTasksWithin(server: Server, dirs: seq<string>, pattern: string,
                                             listed: seq<seq<(string, nat)>>)
    requires |listed| <= |dirs|
    requires forall i :: 0 <= i < |listed| ==> listed[i] == XmlListings(server, dirs, pattern)[i] || listed[i] == []
    ensures forall t :: t in TasksOf(dirs[..|listed|], listed) ==> t in TasksOf(dirs, XmlListings(server, dirs, pattern))
  {
    var k := |listed|;
    var all := XmlListings(server, dirs, pattern);
    forall t | t in TasksOf(dirs[..k], listed) ensures t in TasksOf(dirs, all) {
      TasksOfMembers(dirs[..k], listed, t);
      var i :| 0 <= i < k && Offers(dirs[..k][i], listed[i], t);
      assert listed[i] == all[i];
      assert Offers(dirs[i], all[i], t);
      TasksOfMembers(dirs, all, t);
    }
  }

  /** Whether directory `dir`, listing `files`, offers the file of task `t`. */
  predicate Offers(dir: string, files: seq<(string, nat)>, t: Task) {
    t.dateDir == dir && (t.filename, t.size) in files
  }

  /** Every task comes from a listed directory, with a file of that
      directory's listing no larger than the cutoff, and every such file is
      a task. */
  lemma {:induction false} TasksOfMembers(dirs: seq<string>, listed: seq<seq<(string, nat)>>, t: Task)
    requires |dirs| == |listed|
    ensures t in TasksOf(dirs, listed) <==>
      t.size <= MaxFileSize && exists i :: 0 <= i < |dirs| && Offers(dirs[i], listed[i], t)
    decreases |dirs|
  {
    if dirs != [] {
      var n := |dirs| - 1;
      var d, l := dirs[..n], listed[..n];
      assert TasksOf(dirs, listed) == TasksOf(d, l) + TasksIn(dirs[n], listed[n]);
      TasksOfMembers(d, l, t);
      TasksInMembers(dirs[n], listed[n], t);
      if t in TasksOf(d, l) {
        var i :| 0 <= i < n && Offers(d[i], l[i], t);
        assert Offers(dirs[i], listed[i], t);
      }
      if t in TasksIn(dirs[n], listed[n]) {
        assert Offers(dirs[n], listed[n], t);
      }
      if t.size <= MaxFileSize && exists i :: 0 <= i < |dirs| && Offers(dirs[i], listed[i], t) {
        var i :| 0 <= i < |dirs| && Offers(dirs[i], listed[i], t);
        if i < n {
          assert Offers(d[i], l[i], t);
        }
      }
    }
  }

  /** The results among the outcomes of the searched files, in order. */
  function Found(outcomes: seq<Option<SearchResult>>): (rs: seq<SearchResult>)
    ensures |rs| <= |outcomes|
    decreases |outcomes|
  {
    if outcomes == [] then []
    else
      var o := outcomes[|outcomes| - 1];
      Found(outcomes[..|outcomes| - 1]) + (if o.Some? then [o.value] else [])
  }

  /** Each result comes from one outcome, and each outcome with a result
      contributes it. */
  lemma {:induction false} FoundMembers(outcomes: seq<Option<SearchResult>>, r: SearchResult)
    ensures r in Found(outcomes) <==> Some(r) in outcomes
    decreases |outcomes|
  {
    if outcomes != [] {
      var init := outcomes[..|outcomes| - 1];
      FoundMembers(init, r);
      assert outcomes == init + [outcomes[|outcomes| - 1]];
    }
  }

  /** Outcomes without any result leave nothing to collect. */
  lemma {:induction false} FoundNone(outcomes: seq<Option<SearchResult>>)
    requires NoneAnswered(outcomes, None)
    ensures Found(outcomes) == []
    decreases |outcomes|
  {
    if outcomes != [] {
      FoundNone(outcomes[..|outcomes| - 1]);
    }
  }

  function Min(a: nat, b: nat): nat {
    if a <= b then a else b
  }

  /** The progress after one completed task has been collected. */
  function Collected(p: Snapshot, task: Task, r: Option<SearchResult>): (q: Snapshot)
    ensures q.filesProcessed == p.filesProcessed + 1 && q.currentFile == task.filename
    ensures q.matchesFound == p.matchesFound + (if r.Some? then 1 else 0)
    ensures q.(filesProcessed := p.filesProcessed, currentFile := p.currentFile, matchesFound := p.matchesFound) == p
  {
    p.(matchesFound := p.matchesFound + |Found([r])|, filesProcessed := p.filesProcessed + 1,
       currentFile := task.filename)
  }

  /** The progress after completed tasks have been collected in order. */
  function CollectedAll(p: Snapshot, tasks: seq<Task>, outcomes: seq<Option<SearchResult>>): Snapshot
    requires |tasks| == |outcomes|
    decreases |tasks|
  {
    if tasks == [] then p
    else Collected(CollectedAll(p, tasks[..|tasks| - 1], outcomes[..|outcomes| - 1]),
                   tasks[|tasks| - 1], outcomes[|outcomes| - 1])
  }

  /** One more collected task extends the collected progress and results. */
  lemma CollectStep(p: Snapshot, tasks: seq<Task>, outcomes: seq<Option<SearchResult>>, r: Option<SearchResult>)
    requires |outcomes| < |tasks|
    ensures var n := |outcomes|;
      CollectedAll(p, tasks[..n + 1], outcomes + [r]) == Collected(CollectedAll(p, tasks[..n], outcomes), tasks[n], r)
    ensures Found(outcomes + [r]) == Found(outcomes) + Found([r])
  {
    var n := |outcomes|;
    assert (outcomes + [r])[..n] == outcomes;
    assert tasks[..n + 1][..n] == tasks[..n];
    assert [r][..0] == [];
  }

  /** Collecting counts each collected file once and each result once: the
      match counter grows by exactly the number of results. */
  lemma {:induction false} CollectedAllCounts(p: Snapshot, tasks: seq<Task>, outcomes: seq<Option<SearchResult>>)
    requires |tasks| == |outcomes|
    ensures var q := CollectedAll(p, tasks, outcomes);
      q == p.(filesProcessed := p.filesProcessed + |tasks|, matchesFound := p.matchesFound + |Found(outcomes)|,
              currentFile := q.currentFile)
    decreases |tasks|
  {
    if tasks != [] {
      var n := |tasks| - 1;
      CollectedAllCounts(p, tasks[..n], outcomes[..n]);
      var o := outcomes[n];
      assert Found(outcomes) == Found(outcomes[..n]) + Found([o]) by {
        assert [o][..0] == [];
      }
    }
  }

  /** The result `_search_file` reports for a task once its stream is open. */
  function FileResult(engine: Engine, server: Server, task: Task): Option<SearchResult> {
    match OpenedFile(server, task.dateDir, task.filename, "", "")
    case None => None
    case Some(file) => EngineOutcome(engine, file, task.dateDir, task.filename)
  }

  /** Whether `o` is what searching the file of `task` can report: nothing,
      when the connection or the stream could not be had, or the file's
      result. */
  predicate Reported(engine: Engine, server: Server, task: Task, o: Option<SearchResult>) {
    o.None? || ResultOf(engine, server, task, o.value)
  }

  /** Whether `x` is the result of searching the file of `task`. */
  predicate ResultOf(engine: Engine, server: Server, task: Task, x: SearchResult) {
    FileResult(engine, server, task) == Some(x)
  }

  /** What `_search_file` reports for each task when every request is
      granted. */
  function FileResults(engine: Engine, server: Server, tasks: seq<Task>): seq<Option<SearchResult>> {
    seq(|tasks|, i requires 0 <= i < |tasks| => FileResult(engine, server, tasks[i]))
  }

  /** Every result is the result of searching the file of one of the tasks. */
  ghost predicate FromFiles(engine: Engine, server: Server, tasks: seq<Task>, rs: seq<SearchResult>) {
    forall x :: x in rs ==> exists i :: 0 <= i < |tasks| && ResultOf(engine, server, tasks[i], x)
  }

  /** A result among collected outcomes that are each what their task's file
      reports comes from the file of one of the tasks. */
  lemma FoundFromFile(engine: Engine, server: Server, tasks: seq<Task>, outcomes: seq<Option<SearchResult>>,
                      x: SearchResult)
    requires |outcomes| <= |tasks|
    requires forall i :: 0 <= i < |outcomes| ==> Reported(engine, server, tasks[i], outcomes[i])
    requires x in Found(outcomes)
    ensures exists i :: 0 <= i < |tasks| && ResultOf(engine, server, tasks[i], x)
  {
    FoundMembers(outcomes, x);
    var i :| 0 <= i < |outcomes| && outcomes[i] == Some(x);
    assert Reported(engine, server, tasks[i], outcomes[i]);
  }

  /** Collected outcomes that are each what their task's file reports yield
      results that each come from their own task's file. */
  lemma FoundFromFiles(engine: Engine, server: Server, tasks: seq<Task>, outcomes: seq<Option<SearchResult>>)
    requires |outcomes| <= |tasks|
    requires forall i :: 0 <= i < |outcomes| ==> Reported(engine, server, tasks[i], outcomes[i])
    ensures FromFiles(engine, server, tasks, Found(outcomes))
  {
    forall x | x in Found(outcomes) ensures exists i :: 0 <= i < |tasks| && ResultOf(engine, server, tasks[i], x) {
      FoundFromFile(engine, server, tasks, outcomes, x);
    }
  }

  /** Each outcome of searching the tasks' files on requests in sequence is
      what its task's file can report. */
  lemma AnsweredReported(engine: Engine, server: Server, tasks: seq<Task>,
                         s: PoolState, poolSize: int, net: Network, n: nat, k: nat)
    requires k <= |tasks|
    ensures var os := Answered(FileResults(engine, server, tasks), None, s, poolSize, net, n, k);
      forall i :: 0 <= i < k ==> Reported(engine, server, tasks[i], os[i])
  {
    AnsweredWithin(FileResults(engine, server, tasks), None, s, poolSize, net, n, k);
  }

  /** The state of the collection loop after `outcomes`: the progress `q`
      and the results `rs` are the starting ones `p0` and `r0` with the
      outcomes collected in order. */
  ghost predicate Collecting(p0: Snapshot, r0: seq<SearchResult>, tasks: seq<Task>,
                             outcomes: seq<Option<SearchResult>>, q: Snapshot, rs: seq<SearchResult>)
  {
    |outcomes| <= |tasks|
    && rs == r0 + Found(outcomes)
    && q == CollectedAll(p0, tasks[..|outcomes|], outcomes)
  }

  /** Collecting one more outcome keeps the collection loop's state in
      step. */
  lemma CollectingStep(p0: Snapshot, r0: seq<SearchResult>, tasks: seq<Task>,
                       outcomes: seq<Option<SearchResult>>, q: Snapshot, rs: seq<SearchResult>, r: Option<SearchResult>)
    requires Collecting(p0, r0, tasks, outcomes, q, rs)
    requires |outcomes| < |tasks|
    ensures Collecting(p0, r0, tasks, outcomes + [r], Collected(q, tasks[|outcomes|], r), rs + Found([r]))
  {
    CollectStep(p0, tasks, outcomes, r);
  }

  // ---------------------------------------------------------------------------
  // The worker

  class SearchWorker {
    const ftp: FtpManager
    const progress: SearchProgress
    var results: seq<SearchResult>
    var stopEvent: bool
    /** Stop-flag checks made so far. */
    var checks: nat

    constructor(ftp: FtpManager)
      ensures this.ftp == ftp && fresh(progress) && progress.State() == Initial()
      ensures results == [] && !stopEvent && checks == 0
    {
      this.ftp := ftp;
      progress := new SearchProgress();
      results := [];
      stopEvent := false;
      checks := 0;
    }

    /** `stop`. */
    method Stop()
      modifies this
      ensures stopEvent && results == old(results) && checks == old(checks)
    {
      stopEvent := true;
    }

    /** `stop_event.is_set()`, with a concurrent `stop()` that the check
        numbered `stopAt` and every later one see. */
    method StopSeen(stopAt: nat) returns (b: bool)
      modifies this
      ensures checks == old(checks) + 1 && results == old(results)
      ensures stopEvent == (old(stopEvent) || old(checks) >= stopAt)
      ensures b == stopEvent
    {
      if checks >= stopAt {
        Stop();
      }
      checks := checks + 1;
      b := stopEvent;
    }

    /** `_search_file`: nothing is opened once a stop is seen; otherwise the
        file's stream is opened and searched, and its connection given back.
        Whatever happens, the pool ends with the connections it had lent
        before, and a request made steps it as one that gives its connection
        back. */
    method SearchFile(task: Task, engine: Engine, server: Server, net: Network, stopAt: nat)
      returns (r: Option<SearchResult>)
      requires ftp.Valid()
      modifies this, ftp, ftp.pool
      ensures ftp.Valid() && ftp.pool == old(ftp.pool) && ftp.isConnected == old(ftp.isConnected)
      ensures ftp.pool != null ==> ftp.pool.lent == old(ftp.pool.lent)
      ensures results == old(results) && checks == old(checks) + 1
      ensures stopEvent == (old(stopEvent) || old(checks) >= stopAt)
      ensures stopEvent ==> r.None? && ftp.requests == old(ftp.requests)
      ensures !stopEvent && !ftp.isConnected ==> r.None? && ftp.requests == old(ftp.requests)
      ensures (stopEvent || !ftp.isConnected) && ftp.pool != null ==> ftp.pool.State() == old(ftp.pool.State())
      ensures !stopEvent && ftp.isConnected ==>
        ftp.requests == old(ftp.requests) + 1
        && r == (if old(ftp.NextGranted(net)) then FileResult(engine, server, task) else None)
        && ftp.pool.State()
           == Used(old(ftp.pool.State()), ftp.pool.poolSize, net.alive(old(ftp.requests)), net.connects(old(ftp.requests)))
    {
      var stop := StopSeen(stopAt);
      if stop {
        return None;
      }
      var conn, file := ftp.GetFileStream(task.dateDir, task.filename, "", "", server, net);
      if conn.None? || file.None? {
        return None;
      }
      match engine {
        case TextMode(e) =>
          r := SearchInStream(e, file.value.chunks, file.value.transferFails, task.dateDir, task.filename,
                              DefaultChunkSize, true);
        case XPathMode(x) =>
          r := XPath.XPathSearchInStream(x, file.value.events, file.value.transferFails,
                                         task.dateDir, task.filename);
      }
      ftp.ReleaseFileStream(conn);
    }

    /** One directory of the directory loop of `search`: unless a stop is
        seen, its XML files are listed.  The ghost arguments say where the
        pool stands: `k` requests after state `s0` at request `n0`. */
    method ListNext(dir: string, pattern: string, server: Server, net: Network, stopAt: nat,
                    ghost s0: PoolState, ghost size: int, ghost n0: nat, ghost k: nat)
      returns (stop: bool, files: seq<(string, nat)>)
      requires ftp.Valid()
      requires ftp.isConnected ==>
        ftp.pool.poolSize == size && ftp.requests == n0 + k && ftp.pool.State() == PoolAfter(s0, size, net, n0, k)
      modifies this, ftp, ftp.pool
      ensures ftp.Valid() && ftp.pool == old(ftp.pool) && ftp.isConnected == old(ftp.isConnected)
      ensures ftp.pool != null ==> ftp.pool.lent == old(ftp.pool.lent)
      ensures results == old(results) && checks == old(checks) + 1
      ensures stopEvent == (old(stopEvent) || old(checks) >= stopAt) && stop == stopEvent
      ensures stop || !ftp.isConnected ==>
        files == [] && ftp.requests == old(ftp.requests)
        && (ftp.pool != null ==> ftp.pool.State() == old(ftp.pool.State()))
      ensures !stop && ftp.isConnected ==>
        ftp.requests == n0 + k + 1 && ftp.pool.State() == PoolAfter(s0, size, net, n0, k + 1)
        && files == (if GrantedAt(s0, size, net, n0, k) then XmlFilesOutcome(server, dir, pattern, "", "") else [])
    {
      stop := StopSeen(stopAt);
      if stop {
        return stop, [];
      }
      ghost var before := if ftp.pool != null then ftp.pool.State() else s0;
      ghost var granted := ftp.isConnected && ftp.NextGranted(net);
      files := ftp.ListXmlFiles(dir, pattern, "", "", server, net);
      if ftp.isConnected {
        NextRequest(s0, size, net, n0, k, before, granted);
      }
    }

    /** The directory loop of `search`: each directory, until a stop is seen,
        has its XML files listed, and the files within the size cutoff become
        tasks.  `listed` are the listings obtained, one per directory
        visited, each on its own request. */
    method BuildTasks(dirs: seq<string>, pattern: string, server: Server, net: Network, stopAt: nat)
      returns (tasks: seq<Task>, ghost listed: seq<seq<(string, nat)>>)
      requires ftp.Valid()
      modifies this, ftp, ftp.pool
      ensures ftp.Valid() && ftp.pool == old(ftp.pool) && ftp.isConnected == old(ftp.isConnected)
      ensures ftp.pool != null ==> ftp.pool.lent == old(ftp.pool.lent)
      ensures results == old(results)
      ensures |listed| <= |dirs| && tasks == TasksOf(dirs[..|listed|], listed)
      ensures ftp.isConnected ==>
        listed == Answered(XmlListings(server, dirs, pattern), [], old(ftp.pool.State()), ftp.pool.poolSize, net,
                           old(ftp.requests), |listed|)
        && ftp.requests == old(ftp.requests) + |listed|
        && ftp.pool.State() == PoolAfter(old(ftp.pool.State()), ftp.pool.poolSize, net, old(ftp.requests), |listed|)
      ensures !ftp.isConnected ==>
        NoneAnswered(listed, []) && ftp.requests == old(ftp.requests)
        && (ftp.pool != null ==> ftp.pool.State() == old(ftp.pool.State()))
      ensures !old(stopEvent) ==>
        |listed| == Min(|dirs|, if stopAt >= old(checks) then stopAt - old(checks) else 0)
      ensures old(stopEvent) ==> listed == []
      ensures stopEvent == (old(stopEvent) || |listed| < |dirs|)
      ensures checks == old(checks) + Min(|dirs|, |listed| + 1)
    {
      ghost var s0 := if ftp.pool != null then ftp.pool.State() else PoolState([], 0, 0);
      ghost var size := if ftp.pool != null then ftp.pool.poolSize else 0;
      ghost var n0 := ftp.requests;
      tasks := [];
      listed := [];
      var i := 0;
      while i < |dirs|
        invariant 0 <= i <= |dirs| && |listed| == i
        invariant ftp.Valid() && ftp.pool == old(ftp.pool) && ftp.isConnected == old(ftp.isConnected)
        invariant ftp.pool != null ==> ftp.pool.lent == old(ftp.pool.lent) && ftp.pool.poolSize == size
        invariant results == old(results)
        invariant checks == old(checks) + i
        invariant stopEvent == old(stopEvent)
        invariant i > 0 ==> !old(stopEvent) && old(checks) + i <= stopAt
        invariant tasks == TasksOf(dirs[..i], listed)
        invariant ftp.isConnected ==>
          listed == Answered(XmlListings(server, dirs, pattern), [], s0, size, net, n0, i)
          && ftp.requests == n0 + i && ftp.pool.State() == PoolAfter(s0, size, net, n0, i)
        invariant !ftp.isConnected ==>
          NoneAnswered(listed, []) && ftp.requests == n0 && (ftp.pool != null ==> ftp.pool.State() == s0)
      {
        var stop, files := ListNext(dirs[i], pattern, server, net, stopAt, s0, size, n0, i);
        if stop {
          break;
        }
        var found := CollectTasks(dirs[i], files);
        TasksOfStep(dirs, listed, files);
        if ftp.isConnected {
          AnsweredStep(XmlListings(server, dirs, pattern), [], s0, size, net, n0, listed, files);
        }
        tasks := tasks + found;
        listed := listed + [files];
        i := i + 1;
      }
    }

    /** One task of the collection loop: its file is searched, then, unless
        a stop is seen, its result (if any) is appended and counted and the
        file counted as processed.  The ghost arguments say where the pool
        stands: `k` requests after state `s0` at request `n0`. */
    method CollectNext(task: Task, engine: Engine, server: Server, net: Network, stopAt: nat,
                       ghost s0: PoolState, ghost size: int, ghost n0: nat, ghost k: nat)
      returns (stop: bool, r: Option<SearchResult>)
      requires ftp.Valid()
      requires ftp.isConnected ==>
        ftp.pool.poolSize == size && ftp.requests == n0 + k && ftp.pool.State() == PoolAfter(s0, size, net, n0, k)
      modifies this, ftp, ftp.pool, progress
      ensures ftp.Valid() && ftp.pool == old(ftp.pool) && ftp.isConnected == old(ftp.isConnected)
      ensures ftp.pool != null ==> ftp.pool.lent == old(ftp.pool.lent)
      ensures checks == old(checks) + 2
      ensures stopEvent == (old(stopEvent) || old(checks) + 1 >= stopAt)
      ensures stop == stopEvent
      ensures Reported(engine, server, task, r)
      ensures old(stopEvent) || old(checks) >= stopAt || !ftp.isConnected ==>
        r.None? && ftp.requests == old(ftp.requests)
        && (ftp.pool != null ==> ftp.pool.State() == old(ftp.pool.State()))
      ensures !(old(stopEvent) || old(checks) >= stopAt) && ftp.isConnected ==>
        ftp.requests == old(ftp.requests) + 1
        && r == (if old(ftp.NextGranted(net)) then FileResult(engine, server, task) else None)
        && ftp.pool.State()
           == Used(old(ftp.pool.State()), ftp.pool.poolSize, net.alive(old(ftp.requests)), net.connects(old(ftp.requests)))
      ensures !(old(stopEvent) || old(checks) >= stopAt) && ftp.isConnected ==>
        ftp.pool.State() == PoolAfter(s0, size, net, n0, k + 1)
        && r == (if GrantedAt(s0, size, net, n0, k) then FileResult(engine, server, task) else None)
      ensures stop ==> results == old(results) && progress.State() == old(progress.State())
      ensures !stop ==> results == old(results) + Found([r])
                        && progress.State() == Collected(old(progress.State()), task, r)
    {
      ghost var before := if ftp.pool != null then ftp.pool.State() else s0;
      ghost var granted := ftp.isConnected && ftp.NextGranted(net);
      r := SearchFile(task, engine, server, net, stopAt);
      if ftp.isConnected {
        NextRequest(s0, size, net, n0, k, before, granted);
      }
      stop := StopSeen(stopAt);
      if stop {
        return;
      }
      Record(task, r);
    }

    /** The body of the collection loop after the stop check: the result, if
        any, is appended and counted, and the file counted as processed. */
    method Record(task: Task, r: Option<SearchResult>)
      modifies this, progress
      ensures results == old(results) + Found([r])
      ensures progress.State() == Collected(old(progress.State()), task, r)
      ensures checks == old(checks) && stopEvent == old(stopEvent)
    {
      assert [r][..0] == [];
      if r.Some? {
        results := results + [r.value];
        progress.AddMatch();
      }
      progress.UpdateFile(task.filename);
    }

    /** The collection loop of `search`: each task's file is searched and,
        until a stop is seen, its result collected.  `outcomes` are the
        results collected, one per task, each searched on its own request;
        the task whose search is followed by the stop check that sees a stop
        has made its request without being collected. */
    method CollectResults(tasks: seq<Task>, engine: Engine, server: Server, net: Network, stopAt: nat)
      returns (ghost outcomes: seq<Option<SearchResult>>, ghost made: nat)
      requires ftp.Valid()
      modifies this, ftp, ftp.pool, progress
      ensures ftp.Valid() && ftp.pool == old(ftp.pool) && ftp.isConnected == old(ftp.isConnected)
      ensures ftp.pool != null ==> ftp.pool.lent == old(ftp.pool.lent)
      ensures Collecting(old(progress.State()), old(results), tasks, outcomes, progress.State(), results)
      ensures !old(stopEvent) ==>
        |outcomes| == Min(|tasks|, if stopAt >= old(checks) then (stopAt - old(checks)) / 2 else 0)
      ensures old(stopEvent) ==> outcomes == []
      ensures stopEvent == (old(stopEvent) || |outcomes| < |tasks|)
      ensures made == |outcomes| + (if !old(stopEvent) && |outcomes| < |tasks| && old(checks) + 2 * |outcomes| < stopAt
                                    then 1 else 0)
      ensures ftp.isConnected ==>
        outcomes == Answered(FileResults(engine, server, tasks), None, old(ftp.pool.State()), ftp.pool.poolSize, net,
                             old(ftp.requests), |outcomes|)
        && ftp.requests == old(ftp.requests) + made
        && ftp.pool.State() == PoolAfter(old(ftp.pool.State()), ftp.pool.poolSize, net, old(ftp.requests), made)
      ensures !ftp.isConnected ==>
        NoneAnswered(outcomes, None) && ftp.requests == old(ftp.requests)
        && (ftp.pool != null ==> ftp.pool.State() == old(ftp.pool.State()))
    {
      ghost var p0 := progress.State();
      ghost var s0 := if ftp.pool != null then ftp.pool.State() else PoolState([], 0, 0);
      ghost var size := if ftp.pool != null then ftp.pool.poolSize else 0;
      ghost var n0 := ftp.requests;
      outcomes, made := [], 0;
      var i := 0;
      while i < |tasks|
        invariant 0 <= i <= |tasks| && |outcomes| == i && made == i
        invariant ftp.Valid() && ftp.pool == old(ftp.pool) && ftp.isConnected == old(ftp.isConnected)
        invariant ftp.pool != null ==> ftp.pool.lent == old(ftp.pool.lent) && ftp.pool.poolSize == size
        invariant checks == old(checks) + 2 * i && stopEvent == old(stopEvent)
        invariant i > 0 ==> !old(stopEvent) && old(checks) + 2 * i <= stopAt
        invariant Collecting(p0, old(results), tasks, outcomes, progress.State(), results)
        invariant ftp.isConnected ==>
          outcomes == Answered(FileResults(engine, server, tasks), None, s0, size, net, n0, i)
          && ftp.requests == n0 + i && ftp.pool.State() == PoolAfter(s0, size, net, n0, i)
        invariant !ftp.isConnected ==>
          NoneAnswered(outcomes, None) && ftp.requests == n0 && (ftp.pool != null ==> ftp.pool.State() == s0)
      {
        var stop, r, asked := CollectStep(tasks, i, engine, server, net, stopAt, p0, old(results), s0, size, n0, outcomes);
        if stop {
          if !old(stopEvent) {
            assert stopAt - old(checks) == 2 * i || stopAt - old(checks) == 2 * i + 1 || stopAt < old(checks) + 2 * i;
          }
          made := if asked then i + 1 else i;
          break;
        }
        outcomes := outcomes + [r];
        i := i + 1;
        made := i;
      }
    }

    /** The collection loop's step on the loop's own terms: the task's
        search, made or not, and its result collected unless a stop is seen.
        The ghost arguments say where the loop stands: `outcomes` collected
        from progress `p0` and results `r0`, on requests from pool state
        `s0` at request `n0`. */
    method CollectStep(tasks: seq<Task>, i: nat, engine: Engine, server: Server, net: Network, stopAt: nat,
                       ghost p0: Snapshot, ghost r0: seq<SearchResult>, ghost s0: PoolState, ghost size: int,
                       ghost n0: nat, ghost outcomes: seq<Option<SearchResult>>)
      returns (stop: bool, r: Option<SearchResult>, ghost asked: bool)
      requires ftp.Valid() && i == |outcomes| < |tasks|
      requires ftp.pool != null ==> ftp.pool.poolSize == size
      requires Collecting(p0, r0, tasks, outcomes, progress.State(), results)
      requires ftp.isConnected ==>
        outcomes == Answered(FileResults(engine, server, tasks), None, s0, size, net, n0, i)
        && ftp.requests == n0 + i && ftp.pool.State() == PoolAfter(s0, size, net, n0, i)
      requires !ftp.isConnected ==> NoneAnswered(outcomes, None)
      modifies this, ftp, ftp.pool, progress
      ensures ftp.Valid() && ftp.pool == old(ftp.pool) && ftp.isConnected == old(ftp.isConnected)
      ensures ftp.pool != null ==> ftp.pool.lent == old(ftp.pool.lent)
      ensures checks == old(checks) + 2 && stopEvent == (old(stopEvent) || old(checks) + 1 >= stopAt)
      ensures stop == stopEvent
      ensures asked == !(old(stopEvent) || old(checks) >= stopAt)
      ensures asked && ftp.isConnected ==>
        ftp.requests == n0 + i + 1 && ftp.pool.State() == PoolAfter(s0, size, net, n0, i + 1)
      ensures !asked || !ftp.isConnected ==>
        ftp.requests == old(ftp.requests) && (ftp.pool != null ==> ftp.pool.State() == old(ftp.pool.State()))
      ensures stop ==> results == old(results) && progress.State() == old(progress.State())
      ensures !stop ==> Collecting(p0, r0, tasks, outcomes + [r], progress.State(), results)
      ensures !stop && ftp.isConnected ==>
        outcomes + [r] == Answered(FileResults(engine, server, tasks), None, s0, size, net, n0, i + 1)
      ensures !stop && !ftp.isConnected ==> NoneAnswered(outcomes + [r], None)
    {
      ghost var q, rs := progress.State(), results;
      asked := !(stopEvent || checks >= stopAt);
      stop, r := CollectNext(tasks[i], engine, server, net, stopAt, s0, size, n0, i);
      if !stop {
        CollectingStep(p0, r0, tasks, outcomes, q, rs, r);
        if ftp.isConnected {
          AnsweredStep(FileResults(engine, server, tasks), None, s0, size, net, n0, outcomes, r);
        }
      }
    }

    /** The steps of `search` after date directories were found: tasks are
        built, the totals set, the engine created and the results collected
        into `results`, which starts empty.  `listed` and `outcomes` are the
        listings and search outcomes obtained; the files are searched from
        pool state `from` and request `at`, those the listings left. */
    method CollectDirectories(dirs: seq<string>, keywords: seq<string>, mode: string, caseSensitive: bool,
                             pattern: string, lib: RegexLib, server: Server, net: Network, stopAt: nat, now: int)
      returns (r: Result<seq<SearchResult>>, tasks: seq<Task>, ghost listed: seq<seq<(string, nat)>>,
               ghost outcomes: seq<Option<SearchResult>>, ghost from: PoolState, ghost at: nat)
      requires ftp.Valid() && results == []
      modifies this, ftp, ftp.pool, progress
      ensures ftp.Valid() && ftp.pool == old(ftp.pool) && ftp.isConnected == old(ftp.isConnected)
      ensures ftp.pool != null ==> ftp.pool.lent == old(ftp.pool.lent)
      ensures |listed| <= |dirs| && tasks == TasksOf(dirs[..|listed|], listed)
      ensures progress.directoriesTotal == |dirs| && progress.filesTotal == |tasks|
      ensures ftp.isConnected ==>
        listed == Answered(XmlListings(server, dirs, pattern), [], old(ftp.pool.State()), ftp.pool.poolSize, net,
                           old(ftp.requests), |listed|)
      ensures !ftp.isConnected ==> NoneAnswered(listed, [])
      ensures !old(stopEvent) ==>
        |listed| == Min(|dirs|, if stopAt >= old(checks) then stopAt - old(checks) else 0)
      ensures old(stopEvent) ==> listed == []
      ensures r.Err? <==> CreateSearchEngine(keywords, mode, caseSensitive, lib).Err?
      ensures r.Err? ==>
        r.error == CreateSearchEngine(keywords, mode, caseSensitive, lib).error
        && results == [] && progress.matchesFound == old(progress.matchesFound)
      ensures r.Ok? ==> r.value == results
      ensures r.Ok? ==> results == Found(outcomes)
      ensures r.Ok? ==> progress.matchesFound == old(progress.matchesFound) + |results|
      ensures r.Ok? ==> FromFiles(CreateSearchEngine(keywords, mode, caseSensitive, lib).value, server, tasks, results)
      ensures r.Ok? ==>
        |outcomes| == (if old(stopEvent) || |listed| < |dirs| then 0
                       else Min(|tasks|, if stopAt >= old(checks) + |dirs| then (stopAt - old(checks) - |dirs|) / 2 else 0))
      ensures ftp.isConnected ==>
        from == PoolAfter(old(ftp.pool.State()), ftp.pool.poolSize, net, old(ftp.requests), |listed|)
        && at == old(ftp.requests) + |listed|
      ensures r.Ok? && ftp.isConnected ==>
        outcomes == Answered(FileResults(CreateSearchEngine(keywords, mode, caseSensitive, lib).value, server, tasks), None,
                             from, ftp.pool.poolSize, net, at, |outcomes|)
      ensures r.Ok? && !ftp.isConnected ==> NoneAnswered(outcomes, None)
    {
      tasks, listed := BuildTasks(dirs, pattern, server, net, stopAt);
      from := PoolState([], 0, 0);
      if ftp.pool != null {
        from := ftp.pool.State();
      }
      at := ftp.requests;
      progress.SetTotals(|dirs|, |tasks|, now);
      var engine := CreateSearchEngine(keywords, mode, caseSensitive, lib);
      if engine.Err? {
        return Err(engine.error), tasks, listed, [], from, at;
      }
      ghost var p0 := progress.State();
      ghost var made;
      outcomes, made := CollectResults(tasks, engine.value, server, net, stopAt);
      CollectedAllCounts(p0, tasks[..|outcomes|], outcomes);
      if ftp.isConnected {
        AnsweredReported(engine.value, server, tasks, from, ftp.pool.poolSize, net, at, |outcomes|);
      }
      FoundFromFiles(engine.value, server, tasks, outcomes);
      return Ok(results), tasks, listed, outcomes, from, at;
    }

    /** The part of `search` after date directories were found, into
        `results`, which starts empty: the files searched are among the XML
        files of the date directories, and on a reliable network, with a
        pool that can serve and no stop, they are all of them and the
        result is their results, in directory and listing order. */
    method SearchDirectories(dirs: seq<string>, keywords: seq<string>, mode: string, caseSensitive: bool,
                             pattern: string, lib: RegexLib, server: Server, net: Network, stopAt: nat, now: int)
      returns (r: Result<seq<SearchResult>>, ghost tasks: seq<Task>)
      requires ftp.Valid() && results == []
      modifies this, ftp, ftp.pool, progress
      ensures ftp.Valid() && ftp.pool == old(ftp.pool) && ftp.isConnected == old(ftp.isConnected)
      ensures ftp.pool != null ==> ftp.pool.lent == old(ftp.pool.lent)
      ensures progress.directoriesTotal == |dirs| && progress.filesTotal == |tasks|
      ensures r.Err? <==> CreateSearchEngine(keywords, mode, caseSensitive, lib).Err?
      ensures r.Err? ==>
        r.error == CreateSearchEngine(keywords, mode, caseSensitive, lib).error
        && results == [] && progress.matchesFound == old(progress.matchesFound)
      ensures r.Ok? ==>
        r.value == results && progress.matchesFound == old(progress.matchesFound) + |results|
        && FromFiles(CreateSearchEngine(keywords, mode, caseSensitive, lib).value, server, tasks, results)
      ensures forall t :: t in tasks ==> t in TasksOf(dirs, XmlListings(server, dirs, pattern))
      ensures
        var all := TasksOf(dirs, XmlListings(server, dirs, pattern));
        CreateSearchEngine(keywords, mode, caseSensitive, lib).Ok?
        && Reliable(net) && ftp.isConnected && Ready(old(ftp.pool.State()), ftp.pool.poolSize)
        && !old(stopEvent) && old(checks) + |dirs| + 2 * |all| <= stopAt
        ==> tasks == all
            && r == Ok(Found(FileResults(CreateSearchEngine(keywords, mode, caseSensitive, lib).value, server, all)))
    {
      ghost var s1 := PoolState([], 0, 0);
      if ftp.pool != null {
        s1 := ftp.pool.State();
      }
      ghost var n1 := ftp.requests;
      ghost var listed, outcomes, s2, n2;
      r, tasks, listed, outcomes, s2, n2 := CollectDirectories(dirs, keywords, mode, caseSensitive, pattern, lib, server, net, stopAt, now);
      if ftp.isConnected {
        AnsweredWithin(XmlListings(server, dirs, pattern), [], s1, ftp.pool.poolSize, net, n1, |listed|);
      }
      ListedTasksWithin(server, dirs, pattern, listed);
      ghost var engine := CreateSearchEngine(keywords, mode, caseSensitive, lib);
      ghost var all := TasksOf(dirs, XmlListings(server, dirs, pattern));
      if engine.Ok? && Reliable(net) && ftp.isConnected && Ready(s1, ftp.pool.poolSize)
         && !old(stopEvent) && old(checks) + |dirs| + 2 * |all| <= stopAt {
        ghost var size := ftp.pool.poolSize;
        AnsweredReliable(XmlListings(server, dirs, pattern), [], s1, size, net, n1);
        assert dirs[..|listed|] == dirs;
        ReliableGrants(s1, size, net, n1, |listed|);
        AnsweredReliable(FileResults(engine.value, server, tasks), None, s2, size, net, n2);
      }
    }

    /** `search`.  Empty keywords are refused before anything is listed; no
        date directory (none found, no connection, or the request refused)
        gives no results; the engine is built once the totals are set, and
        its refusal of all-blank keywords ends the search.  `tasks` are the
        files searched.  The progress tracker outlives the search, so its
        match counter grows by the number of results.  On a reliable network,
        with a pool that can serve and no stop, the result is the results of
        the files within the size cutoff of every date directory, in
        directory and listing order. */
    method Search(start: Bound, end: Bound, keywords: seq<string>, mode: string, caseSensitive: bool,
                  pattern: string, lib: RegexLib, server: Server, net: Network, stopAt: nat, now: int)
      returns (r: Result<seq<SearchResult>>, ghost tasks: seq<Task>)
      requires ftp.Valid()
      modifies this, ftp, ftp.pool, progress
      ensures ftp.Valid() && ftp.pool == old(ftp.pool) && ftp.isConnected == old(ftp.isConnected)
      ensures ftp.pool != null ==> ftp.pool.lent == old(ftp.pool.lent)
      ensures keywords == [] ==> r == Err("No keywords provided") && ftp.requests == old(ftp.requests) && tasks == []
      ensures keywords != [] && !(old(ftp.isConnected) && old(ftp.NextGranted(net)) && DateDirsOutcome(server, "", start, end) != []) ==>
        r == Ok([]) && tasks == []
      ensures keywords != [] && old(ftp.isConnected) && old(ftp.NextGranted(net)) && DateDirsOutcome(server, "", start, end) != [] ==>
        progress.directoriesTotal == |DateDirsOutcome(server, "", start, end)| && progress.filesTotal == |tasks|
        && (r.Err? <==> forall i :: 0 <= i < |keywords| ==> Strip(keywords[i]) == [])
      ensures keywords != [] && r.Err? ==>
        (forall i :: 0 <= i < |keywords| ==> Strip(keywords[i]) == [])
        && r.error == CreateSearchEngine(keywords, mode, caseSensitive, lib).error
      ensures r.Ok? ==> r.value == results && progress.matchesFound == old(progress.matchesFound) + |results|
      ensures r.Err? ==> results == [] && progress.matchesFound == old(progress.matchesFound)
      ensures forall t :: t in tasks ==>
        var dirs := DateDirsOutcome(server, "", start, end);
        t in TasksOf(dirs, XmlListings(server, dirs, pattern))
      ensures r.Ok? && results != [] ==>
        CreateSearchEngine(keywords, mode, caseSensitive, lib).Ok?
        && FromFiles(CreateSearchEngine(keywords, mode, caseSensitive, lib).value, server, tasks, results)
      ensures
        var dirs := DateDirsOutcome(server, "", start, end);
        var all := TasksOf(dirs, XmlListings(server, dirs, pattern));
        keywords != [] && CreateSearchEngine(keywords, mode, caseSensitive, lib).Ok?
        && Reliable(net) && old(ftp.isConnected) && Ready(old(ftp.pool.State()), ftp.pool.poolSize)
        && old(checks) + |dirs| + 2 * |all| <= stopAt
        ==> tasks == all
            && r == Ok(Found(FileResults(CreateSearchEngine(keywords, mode, caseSensitive, lib).value, server, all)))
    {
      results := [];
      stopEvent := false;
      tasks := [];
      if keywords == [] {
        return Err("No keywords provided"), tasks;
      }
      ghost var s0 := if ftp.pool != null then ftp.pool.State() else PoolState([], 0, 0);
      ghost var n0 := ftp.requests;
      var dirs := ftp.ListDateDirectories(start, end, "", server, net);
      if dirs == [] {
        return Ok([]), tasks;
      }
      r, tasks := SearchDirectories(dirs, keywords, mode, caseSensitive, pattern, lib, server, net, stopAt, now);
      if ftp.isConnected && Reliable(net) && Ready(s0, ftp.pool.poolSize) {
        ReliableGrants(s0, ftp.pool.poolSize, net, n0, 1);
      }
    }
  }
}
