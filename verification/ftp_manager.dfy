/** `FTPManager` of `src/core/ftp_manager.py`: the connection pool's owner
    and the listing and download operations built on it.  The server is a
    value: the directories it lets a client change into, with the lines of
    their `LIST` replies, and the files it can send.  The answers of the
    network (whether an idle connection still answers, whether a new one
    opens) are inputs indexed by the manager's connection requests. */
module FtpManager {
  import opened Wrappers
  import opened Text
  import opened FtpListing
  import opened FtpPool
  import XPath
  import SearchEngine

  /** What downloading a file delivers: its content in the chunks the
      transfer hands over, whether the transfer breaks off with an error, and
      the elements an XML parser reports at their end events (a parse error
      ends that sequence early). */
  datatype RemoteFile = RemoteFile(chunks: seq<string>, transferFails: bool, events: seq<XPath.Element>)

  /** `listings`: the directories `cwd` accepts, each with its `LIST` lines;
      `files`: the files `size` and `retrbinary` find, by full path. */
  datatype Server = Server(listings: map<string, seq<string>>, files: map<string, RemoteFile>)

  /** For the manager's n-th connection request: whether the oldest idle
      connection answers `NOOP`, and whether a new connection would open. */
  datatype Network = Network(alive: nat -> bool, connects: nat -> bool)

  function FilePathIn(dir: string, filename: string): string {
    dir + "/" + filename
  }

  /** The outcome of `list_date_directories` once a connection is held. */
  function DateDirsOutcome(server: Server, sourceDir: string, start: Bound, end: Bound): seq<string> {
    var path := "/" + OrDefault(sourceDir, SourceDirectory);
    if path in server.listings then DateDirectories(server.listings[path], start, end) else []
  }

  /** The outcome of `list_xml_files` once a connection is held. */
  function XmlFilesOutcome(server: Server, dateDir: string, pattern: string, sourceDir: string, sendDir: string)
    : seq<(string, nat)>
  {
    FilesAt(CandidatePaths(dateDir, OrDefault(sourceDir, SourceDirectory), OrDefault(sendDir, SendFileDirectory)),
            server.listings, pattern)
  }

  /** The file `get_file_stream` opens once a connection is held. */
  function OpenedFile(server: Server, dateDir: string, filename: string, sourceDir: string, sendDir: string)
    : Option<RemoteFile>
  {
    var dir := StreamDirectory(dateDir, OrDefault(sourceDir, SourceDirectory), OrDefault(sendDir, SendFileDirectory));
    if dir in server.listings && FilePathIn(dir, filename) in server.files then
      Some(server.files[FilePathIn(dir, filename)])
    else None
  }

  /** The path a result reports is not the path of the file that was
      searched: the file is read from `/{source}/{date}/Send File`, while
      `file_path` leaves out the source directory. */
  lemma ReportedPathLacksSource(r: SearchEngine.SearchResult, sourceDir: string)
    ensures FilePathIn(StreamDirectory(r.dateDir, sourceDir, SendFileDirectory), r.filename)
         == "/" + sourceDir + SearchEngine.FilePath(r)
    ensures SearchEngine.FilePath(r) != FilePathIn(StreamDirectory(r.dateDir, sourceDir, SendFileDirectory), r.filename)
  {
    var path := FilePathIn(StreamDirectory(r.dateDir, sourceDir, SendFileDirectory), r.filename);
    assert path == "/" + sourceDir + ("/" + r.dateDir + "/Send File/" + r.filename);
    assert |path| > |SearchEngine.FilePath(r)|;
  }

  // ---------------------------------------------------------------------------
  // Requests in sequence

  /** The pool's state after `k` requests that each give their connection
      back, made from state `s` starting with the manager's request `n`. */
  function PoolAfter(s: PoolState, poolSize: int, net: Network, n: nat, k: nat): PoolState
    decreases k
  {
    if k == 0 then s
    else PoolAfter(Used(s, poolSize, net.alive(n), net.connects(n)), poolSize, net, n + 1, k - 1)
  }

  /** Whether the request after those `k` is granted. */
  predicate GrantedAt(s: PoolState, poolSize: int, net: Network, n: nat, k: nat) {
    var p := PoolAfter(s, poolSize, net, n, k);
    (p.idle != [] && net.alive(n + k)) || (p.active < poolSize && net.connects(n + k))
  }

  /** A request made from where `k` earlier ones left the pool is the next
      of them: whether it is granted is `GrantedAt`, and giving its
      connection back leaves the pool where `k + 1` requests leave it. */
  lemma NextRequest(s: PoolState, poolSize: int, net: Network, n: nat, k: nat, before: PoolState, granted: bool)
    requires before == PoolAfter(s, poolSize, net, n, k)
    requires granted == ((before.idle != [] && net.alive(n + k)) || (before.active < poolSize && net.connects(n + k)))
    ensures granted == GrantedAt(s, poolSize, net, n, k)
    ensures Used(before, poolSize, net.alive(n + k), net.connects(n + k)) == PoolAfter(s, poolSize, net, n, k + 1)
  {
    PoolAfterStep(s, poolSize, net, n, k);
  }

  /** Requests made in two runs are the requests of one run. */
  lemma {:induction false} PoolAfterAfter(s: PoolState, poolSize: int, net: Network, n: nat, a: nat, b: nat)
    ensures PoolAfter(PoolAfter(s, poolSize, net, n, a), poolSize, net, n + a, b) == PoolAfter(s, poolSize, net, n, a + b)
    decreases a
  {
    if a > 0 {
      PoolAfterAfter(Used(s, poolSize, net.alive(n), net.connects(n)), poolSize, net, n + 1, a - 1, b);
    }
  }

  /** One more request steps the pool from where the earlier ones left it. */
  lemma PoolAfterStep(s: PoolState, poolSize: int, net: Network, n: nat, k: nat)
    ensures PoolAfter(s, poolSize, net, n, k + 1)
         == Used(PoolAfter(s, poolSize, net, n, k), poolSize, net.alive(n + k), net.connects(n + k))
  {
    PoolAfterAfter(s, poolSize, net, n, k, 1);
  }

  /** The answers to `k` requests made in order from pool state `s`,
      starting with request `n`: the `i`-th request answers `xs[i]` when it
      is granted and `none` when it is refused. */
  function Answered<T>(xs: seq<T>, none: T, s: PoolState, poolSize: int, net: Network, n: nat, k: nat): (ys: seq<T>)
    requires k <= |xs|
    ensures |ys| == k
    decreases k
  {
    if k == 0 then []
    else Answered(xs, none, s, poolSize, net, n, k - 1) + [if GrantedAt(s, poolSize, net, n, k - 1) then xs[k - 1] else none]
  }

  /** Each answer is its request's when that request is granted, and `none`
      otherwise. */
  lemma {:induction false} AnsweredAt<T>(xs: seq<T>, none: T, s: PoolState, poolSize: int, net: Network,
                                         n: nat, k: nat, i: nat)
    requires i < k <= |xs|
    ensures Answered(xs, none, s, poolSize, net, n, k)[i] == if GrantedAt(s, poolSize, net, n, i) then xs[i] else none
    decreases k
  {
    if i < k - 1 {
      AnsweredAt(xs, none, s, poolSize, net, n, k - 1, i);
    }
  }

  /** Whether every answer is `none`, as when no request is made. */
  ghost predicate NoneAnswered<T>(ys: seq<T>, none: T) {
    forall i :: 0 <= i < |ys| ==> ys[i] == none
  }

  /** One more request appends its answer. */
  lemma AnsweredStep<T>(xs: seq<T>, none: T, s: PoolState, poolSize: int, net: Network, n: nat, ys: seq<T>, y: T)
    requires |ys| < |xs| && ys == Answered(xs, none, s, poolSize, net, n, |ys|)
    requires y == if GrantedAt(s, poolSize, net, n, |ys|) then xs[|ys|] else none
    ensures ys + [y] == Answered(xs, none, s, poolSize, net, n, |ys| + 1)
  {
  }

  /** Each answer is its request's or `none`. */
  lemma AnsweredWithin<T>(xs: seq<T>, none: T, s: PoolState, poolSize: int, net: Network, n: nat, k: nat)
    requires k <= |xs|
    ensures var ys := Answered(xs, none, s, poolSize, net, n, k);
      forall i :: 0 <= i < k ==> ys[i] == xs[i] || ys[i] == none
  {
    var ys := Answered(xs, none, s, poolSize, net, n, k);
    forall i | 0 <= i < k ensures ys[i] == xs[i] || ys[i] == none {
      AnsweredAt(xs, none, s, poolSize, net, n, k, i);
    }
  }

  /** On a reliable network, from a ready pool, every request is answered. */
  lemma AnsweredReliable<T>(xs: seq<T>, none: T, s: PoolState, poolSize: int, net: Network, n: nat)
    requires Reliable(net) && Ready(s, poolSize)
    ensures Answered(xs, none, s, poolSize, net, n, |xs|) == xs
  {
    forall i | 0 <= i < |xs| ensures Answered(xs, none, s, poolSize, net, n, |xs|)[i] == xs[i] {
      AnsweredAt(xs, none, s, poolSize, net, n, |xs|, i);
      ReliableGrants(s, poolSize, net, n, i);
    }
  }

  /** A network on which every idle connection answers and every new
      connection opens. */
  ghost predicate Reliable(net: Network) {
    forall n: nat :: net.alive(n) && net.connects(n)
  }

  /** A pool that can hand out a connection on a reliable network. */
  predicate Ready(s: PoolState, poolSize: int) {
    ValidState(s, poolSize) && (s.idle != [] || s.active < poolSize)
  }

  /** The pool a successful `connect` leaves is ready. */
  lemma ConnectedPoolReady()
    ensures Ready(PoolState([Session(0, true)], 1, 1), DefaultPoolSize)
    ensures !Ready(PoolState([], DefaultPoolSize, 1), DefaultPoolSize)
  {
  }

  /** On a reliable network a ready pool grants every request and stays
      ready: a request finds an idle connection, or opens one that joins
      the idle queue when given back. */
  lemma {:induction false} ReliableGrants(s: PoolState, poolSize: int, net: Network, n: nat, k: nat)
    requires Reliable(net) && Ready(s, poolSize)
    ensures Ready(PoolAfter(s, poolSize, net, n, k), poolSize) && GrantedAt(s, poolSize, net, n, k)
    decreases k
  {
    assert net.alive(n) && net.connects(n);
    if k > 0 {
      UseAndReturn(s, poolSize, true, true);
      ReliableGrants(Used(s, poolSize, true, true), poolSize, net, n + 1, k - 1);
    }
  }

  /** The line loop of `list_date_directories`: the names of the directory
      lines that pass the date test, in the order of the lines. */
  method CollectDateDirs(lines: seq<string>, start: Bound, end: Bound) returns (dateDirs: seq<string>)
    ensures dateDirs == SelectDateDirs(lines, start, end)
  {
    dateDirs := [];
    var i := 0;
    while i < |lines|
      invariant 0 <= i <= |lines|
      invariant dateDirs == SelectDateDirs(lines[..i], start, end)
    {
      SelectDateDirsStep(lines, i, start, end);
      var name := DateDirOf(lines[i], start, end);
      if name.Some? {
        dateDirs := dateDirs + [name.value];
      }
      i := i + 1;
    }
    assert lines[..i] == lines;
  }

  /** The line loop of `list_xml_files` for one directory: the wanted `.xml`
      files with their sizes, in the order of the lines. */
  method CollectFiles(lines: seq<string>, pattern: string) returns (files: seq<(string, nat)>)
    ensures files == SelectFiles(lines, pattern)
  {
    files := [];
    var i := 0;
    while i < |lines|
      invariant 0 <= i <= |lines|
      invariant files == SelectFiles(lines[..i], pattern)
    {
      SelectFilesStep(lines, i, pattern);
      var entry := FileEntry(lines[i], pattern);
      if entry.Some? {
        files := files + [entry.value];
      }
      i := i + 1;
    }
    assert lines[..i] == lines;
  }

  /** The path loop of `list_xml_files`: the candidate directories in order,
      stopping at the first that can be listed and holds a wanted file. */
  method CollectFirstFiles(paths: seq<string>, listings: map<string, seq<string>>, pattern: string)
    returns (files: seq<(string, nat)>)
    ensures files == FilesAt(paths, listings, pattern)
  {
    files := [];
    var k := 0;
    while k < |paths|
      invariant 0 <= k <= |paths|
      invariant files == []
      invariant FilesAt(paths, listings, pattern) == FilesAt(paths[k..], listings, pattern)
    {
      assert paths[k..][1..] == paths[k + 1..];
      if paths[k] in listings {
        files := CollectFiles(listings[paths[k]], pattern);
        if files != [] {
          return;
        }
      }
      k := k + 1;
    }
  }

  class FtpManager {
    var pool: ConnectionPool?
    var isConnected: bool
    /** Connection requests made so far; indexes the `Network` answers. */
    var requests: nat

    ghost predicate Valid()
      reads this, pool
    {
      (pool != null ==> pool.Valid()) && (isConnected ==> pool != null)
    }

    constructor()
      ensures pool == null && !isConnected && requests == 0
      ensures Valid()
    {
      pool := null;
      isConnected := false;
      requests := 0;
    }

    /** Whether the next connection request is granted. */
    predicate NextGranted(net: Network)
      reads this, pool
      requires pool != null
    {
      pool.Grants(net.alive(requests), net.connects(requests))
    }

    /** `pool.get_connection()`, answered by the network. */
    method Acquire(net: Network) returns (conn: Option<Session>)
      requires Valid() && pool != null
      modifies this, pool
      ensures Valid() && pool == old(pool) && isConnected == old(isConnected)
      ensures requests == old(requests) + 1
      ensures conn.Some? <==> old(NextGranted(net))
      ensures conn.Some? ==> pool.lent == old(pool.lent) + multiset{conn.value}
      ensures conn.None? ==> pool.lent == old(pool.lent)
      ensures (pool.State(), conn)
           == Got(old(pool.State()), pool.poolSize, net.alive(old(requests)), net.connects(old(requests)))
    {
      conn := pool.GetConnection(net.alive(requests), net.connects(requests));
      requests := requests + 1;
    }

    /** `connect`: a fresh pool of the default size, whose first connection is
        given straight back.  On failure the new pool stays in place and the
        connected flag keeps its old value. */
    method Connect(net: Network) returns (ok: bool)
      requires Valid()
      modifies this
      ensures Valid() && fresh(pool)
      ensures pool.poolSize == DefaultPoolSize && pool.lent == multiset{}
      ensures requests == old(requests) + 1
      ensures ok == net.connects(old(requests))
      ensures ok ==> isConnected && pool.State() == PoolState([Session(0, true)], 1, 1)
      ensures !ok ==> isConnected == old(isConnected) && pool.State() == PoolState([], 0, 1)
    {
      pool := new ConnectionPool(DefaultPoolSize);
      var conn := pool.GetConnection(net.alive(requests), net.connects(requests));
      requests := requests + 1;
      if conn.Some? {
        pool.ReturnConnection(conn.value);
        isConnected := true;
        return true;
      }
      return false;
    }

    /** `disconnect`. */
    method Disconnect()
      requires Valid()
      modifies this, pool
      ensures Valid() && pool == old(pool) && !isConnected && requests == old(requests)
      ensures pool != null ==> pool.idle == [] && pool.activeConnections == 0 && pool.lent == old(pool.lent)
    {
      if pool != null {
        pool.CloseAll();
      }
      isConnected := false;
    }

    /** `reconnect`: without a pool there is nothing to reconnect. */
    method Reconnect(net: Network) returns (ok: bool)
      requires Valid()
      modifies this, pool
      ensures Valid()
      ensures old(pool) == null ==>
        !ok && pool == null && isConnected == old(isConnected) && requests == old(requests)
      ensures old(pool) != null ==>
        ok == net.connects(old(requests)) && isConnected == ok && fresh(pool) && requests == old(requests) + 1
        && pool.poolSize == DefaultPoolSize && pool.lent == multiset{}
        && pool.State() == (if ok then PoolState([Session(0, true)], 1, 1) else PoolState([], 0, 1))
    {
      if pool == null {
        return false;
      }
      Disconnect();
      ok := Connect(net);
    }

    /** `list_date_directories`.  The connection is given back on every path. */
    method ListDateDirectories(start: Bound, end: Bound, sourceDir: string, server: Server, net: Network)
      returns (r: seq<string>)
      requires Valid()
      modifies this, pool
      ensures Valid() && pool == old(pool) && isConnected == old(isConnected)
      ensures pool != null ==> pool.lent == old(pool.lent)
      ensures !isConnected ==> r == [] && requests == old(requests)
      ensures isConnected ==> requests == old(requests) + 1
      ensures isConnected ==> r == (if old(NextGranted(net)) then DateDirsOutcome(server, sourceDir, start, end) else [])
      ensures isConnected ==> pool.State() == Used(old(pool.State()), pool.poolSize, net.alive(old(requests)), net.connects(old(requests)))
      ensures !isConnected && pool != null ==> pool.State() == old(pool.State())
    {
      if !isConnected {
        return [];
      }
      var conn := Acquire(net);
      if conn.None? {
        return [];
      }
      var path := "/" + OrDefault(sourceDir, SourceDirectory);
      if path !in server.listings {
        r := [];
      } else {
        var dateDirs := CollectDateDirs(server.listings[path], start, end);
        r := Sort(dateDirs);
      }
      pool.ReturnConnection(conn.value);
    }

    /** `list_xml_files`: the candidate directories in order, stopping at the
        first that holds a wanted file.  The connection is given back on every
        path. */
    method ListXmlFiles(dateDir: string, pattern: string, sourceDir: string, sendDir: string,
                        server: Server, net: Network)
      returns (r: seq<(string, nat)>)
      requires Valid()
      modifies this, pool
      ensures Valid() && pool == old(pool) && isConnected == old(isConnected)
      ensures pool != null ==> pool.lent == old(pool.lent)
      ensures !isConnected ==> r == [] && requests == old(requests)
      ensures isConnected ==> requests == old(requests) + 1
      ensures isConnected ==>
        r == (if old(NextGranted(net)) then XmlFilesOutcome(server, dateDir, pattern, sourceDir, sendDir) else [])
      ensures isConnected ==> pool.State() == Used(old(pool.State()), pool.poolSize, net.alive(old(requests)), net.connects(old(requests)))
      ensures !isConnected && pool != null ==> pool.State() == old(pool.State())
    {
      if !isConnected {
        return [];
      }
      var conn := Acquire(net);
      if conn.None? {
        return [];
      }
      var paths := CandidatePaths(dateDir, OrDefault(sourceDir, SourceDirectory), OrDefault(sendDir, SendFileDirectory));
      var filesFound := CollectFirstFiles(paths, server.listings, pattern);
      r := filesFound;
      pool.ReturnConnection(conn.value);
    }

    /** `get_file_stream`: the file in `/{source}/{date}/{send}`.  When the
        directory or the file cannot be reached the connection is given back
        at once; otherwise it stays handed out with the stream. */
    method GetFileStream(dateDir: string, filename: string, sourceDir: string, sendDir: string,
                         server: Server, net: Network)
      returns (conn: Option<Session>, file: Option<RemoteFile>)
      requires Valid()
      modifies this, pool
      ensures Valid() && pool == old(pool) && isConnected == old(isConnected)
      ensures conn.Some? <==> file.Some?
      ensures !isConnected ==> file.None? && requests == old(requests)
      ensures isConnected ==> requests == old(requests) + 1
      ensures isConnected ==>
        file == (if old(NextGranted(net)) then OpenedFile(server, dateDir, filename, sourceDir, sendDir) else None)
      ensures pool != null && conn.Some? ==> pool.lent == old(pool.lent) + multiset{conn.value}
      ensures pool != null && conn.None? ==> pool.lent == old(pool.lent)
      ensures isConnected && file.Some? ==>
        (pool.State(), conn)
        == Got(old(pool.State()), pool.poolSize, net.alive(old(requests)), net.connects(old(requests)))
      ensures isConnected && file.None? ==> pool.State() == Used(old(pool.State()), pool.poolSize, net.alive(old(requests)), net.connects(old(requests)))
      ensures !isConnected && pool != null ==> pool.State() == old(pool.State())
    {
      if !isConnected {
        return None, None;
      }
      var c := Acquire(net);
      if c.None? {
        return None, None;
      }
      var dir := StreamDirectory(dateDir, OrDefault(sourceDir, SourceDirectory), OrDefault(sendDir, SendFileDirectory));
      if dir !in server.listings || FilePathIn(dir, filename) !in server.files {
        pool.ReturnConnection(c.value);
        assert pool.lent == old(pool.lent);
        return None, None;
      }
      return c, Some(server.files[FilePathIn(dir, filename)]);
    }

    /** `release_file_stream`. */
    method ReleaseFileStream(conn: Option<Session>)
      requires Valid() && (conn.Some? ==> pool != null)
      modifies pool
      ensures Valid()
      ensures pool != null && conn.Some? ==> pool.lent == old(pool.lent) - multiset{conn.value}
      ensures pool != null && conn.None? ==> pool.lent == old(pool.lent)
      ensures pool != null ==>
        pool.State() == (if conn.Some? then Returned(old(pool.State()), pool.poolSize, conn.value) else old(pool.State()))
    {
      if conn.Some? {
        pool.ReturnConnection(conn.value);
      }
    }
  }
}
