/** The text processing inside `FTPManager` (`src/core/ftp_manager.py`):
    classifying the lines of an FTP `LIST` reply (Unix `ls -l` style, Windows
    `<DIR>` style and a fallback), keeping the `YYYYMMDD` directories of a
    date range, keeping the `.xml` files that match a shell pattern with the
    size column guessed from the line, and the directory paths the manager
    tries.  The `LIST` format is left to the server by section 4.1.3 of
    RFC 959, hence the heuristics. */
module FtpListing {
  import opened Wrappers
  import opened Text
  import opened Calendar
  import opened DateUtils

  const DirMarker := "<DIR>"
  const XmlSuffix := ".xml"

  /** `SOURCE_DIRECTORY` and `SEND_FILE_DIRECTORY` of `config/settings.py`. */
  const SourceDirectory := "SAMSUNG"
  const SendFileDirectory := "Send File"

  /** `x or default` for an optional directory argument: an absent or empty
      argument selects the default. */
  function OrDefault(x: string, default: string): (r: string)
    ensures x != [] ==> r == x
    ensures x == [] ==> r == default
  {
    if x == [] then default else x
  }

  function Last(parts: seq<string>): string
    requires |parts| > 0
  {
    parts[|parts| - 1]
  }

  /** `parts.index(x)`, `None` where Python raises `ValueError`. */
  function IndexOf(parts: seq<string>, x: string): (r: Option<nat>)
    ensures r.Some? ==> r.value < |parts| && parts[r.value] == x
                        && forall j :: 0 <= j < r.value ==> parts[j] != x
    ensures r.None? <==> x !in parts
  {
    if parts == [] then None
    else if parts[0] == x then Some(0)
    else match IndexOf(parts[1..], x)
      case None => None
      case Some(k) => Some(k + 1)
  }

  predicate HasMarkerInside(parts: seq<string>) {
    exists i :: 0 <= i < |parts| && Find(parts[i], DirMarker).Some?
  }

  // ---------------------------------------------------------------------------
  // Directory lines

  /** The directory name a `LIST` line announces, if the line is recognised as
      a directory: a first token starting with `d` names the last token; a
      line of three or more tokens with a `<DIR>` token names the token after
      it (none when `<DIR>` is last); any token containing `<DIR>` names the
      last token; any other line is not a directory. */
  function DirName(line: string): (r: Option<string>)
    ensures r.Some? ==> r.value in Split(line) && r.value != []
  {
    var parts := Split(line);
    if parts == [] then None
    else if StartsWith(parts[0], "d") then Some(Last(parts))
    else if |parts| >= 3 && DirMarker in parts then
      var k := IndexOf(parts, DirMarker).value;
      if k + 1 < |parts| then Some(parts[k + 1]) else None
    else if HasMarkerInside(parts) then Some(Last(parts))
    else None
  }

  /** Only lines in one of the directory styles name a directory. */
  lemma DirNameNeedsMarker(line: string)
    requires DirName(line).Some?
    ensures var parts := Split(line);
      StartsWith(parts[0], "d") || HasMarkerInside(parts)
  {
    var parts := Split(line);
    if !StartsWith(parts[0], "d") && |parts| >= 3 && DirMarker in parts {
      var k := IndexOf(parts, DirMarker).value;
      assert Find(parts[k], DirMarker) == Some(0) by {
        assert OccursAt(parts[k], DirMarker, 0) by {
          assert parts[k][0..|DirMarker|] == parts[k];
        }
      }
    }
  }

  /** A Unix-style line `drwxr-xr-x  2 user group  4096 Sep  3 10:00 NAME`,
      its columns padded with any runs of whitespace, names its last token. */
  lemma UnixDirLine(ts: seq<string>, seps: seq<string>)
    requires |seps| == |ts| + 1 && Words(ts) && Separators(seps)
    requires |ts| > 0 && StartsWith(ts[0], "d")
    ensures DirName(Interleave(ts, seps)) == Some(Last(ts))
  {
    SplitInterleave(ts, seps);
  }

  /** A line of three or more tokens, not starting with `d`, whose first
      `<DIR>` token is at index `k` (`09-03-25  10:00AM  <DIR>  NAME` has
      `k == 2`) names the token after it, and nothing when `<DIR>` is the
      last token. */
  lemma WindowsDirLine(ts: seq<string>, seps: seq<string>, k: nat)
    requires |seps| == |ts| + 1 && Words(ts) && Separators(seps)
    requires |ts| >= 3 && !StartsWith(ts[0], "d")
    requires k < |ts| && ts[k] == DirMarker && forall j :: 0 <= j < k ==> ts[j] != DirMarker
    ensures DirName(Interleave(ts, seps)) == if k + 1 < |ts| then Some(ts[k + 1]) else None
  {
    SplitInterleave(ts, seps);
    assert DirMarker in ts;
    assert IndexOf(ts, DirMarker) == Some(k);
  }

  /** The fallback: a line not starting with `d` and not in the `<DIR>`-token
      style, one of whose tokens contains `<DIR>`, names its last token. */
  lemma MarkerInsideDirLine(ts: seq<string>, seps: seq<string>, i: nat)
    requires |seps| == |ts| + 1 && Words(ts) && Separators(seps)
    requires |ts| > 0 && !StartsWith(ts[0], "d") && !(|ts| >= 3 && DirMarker in ts)
    requires i < |ts| && Find(ts[i], DirMarker).Some?
    ensures DirName(Interleave(ts, seps)) == Some(Last(ts))
  {
    SplitInterleave(ts, seps);
    assert HasMarkerInside(ts);
  }

  // ---------------------------------------------------------------------------
  // The date range

  /** An instant: a day and the microseconds since its midnight. */
  datatype Moment = Moment(date: Date, micros: int)

  /** A bound of the search range: a `date` (widened to the start or the end
      of its day) or a `datetime`. */
  datatype Bound = OnDay(day: Date) | At(moment: Moment)

  /** `datetime.max.time()`: 23:59:59.999999, in microseconds. */
  const LastMicro := 86_399_999_999

  function StartOf(b: Bound): Moment {
    match b
    case OnDay(d) => Moment(d, 0)
    case At(m) => m
  }

  function EndOf(b: Bound): Moment {
    match b
    case OnDay(d) => Moment(d, LastMicro)
    case At(m) => m
  }

  /** Python's comparison of two `datetime`s. */
  predicate MomentLe(a: Moment, b: Moment) {
    DateLt(a.date, b.date) || (a.date == b.date && a.micros <= b.micros)
  }

  /** `start_dt <= dir_date <= end_dt`, where the directory's date is read as
      its midnight. */
  predicate InRange(d: Date, start: Bound, end: Bound) {
    MomentLe(StartOf(start), Moment(d, 0)) && MomentLe(Moment(d, 0), EndOf(end))
  }

  /** With `date` bounds the range holds exactly the days from the first to the
      last, both included. */
  lemma DayBoundsInRange(d: Date, s: Date, e: Date)
    requires ValidDate(d) && ValidDate(s) && ValidDate(e)
    ensures InRange(d, OnDay(s), OnDay(e)) <==> Ordinal(s) <= Ordinal(d) <= Ordinal(e)
  {
    DateLeOrdinal(s, d);
    DateLeOrdinal(d, e);
  }

  /** A `datetime` start later than midnight excludes the directory of its own
      day. */
  lemma LateStartExcludesItsDay(d: Date, t: int, end: Bound)
    requires t > 0
    ensures !InRange(d, At(Moment(d, t)), end)
  {
  }

  /** The directory-name test: eight digits that `strptime("%Y%m%d")` reads
      as a date inside the range. */
  predicate KeepDateDir(name: string, start: Bound, end: Bound) {
    |name| == 8 && IsDigits(name)
    && var d := ParseYmd(name);
       d.Some? && InRange(d.value, start, end)
  }

  /** The values a line loop appends: for each line in order, the value
      `f` finds in it, if any. */
  function FilterMap<T>(lines: seq<string>, f: string -> Option<T>): seq<T>
    decreases |lines|
  {
    if lines == [] then []
    else
      var last := f(lines[|lines| - 1]);
      FilterMap(lines[..|lines| - 1], f) + (if last.Some? then [last.value] else [])
  }

  /** One more line appends the value it yields, if any. */
  lemma FilterMapStep<T>(lines: seq<string>, i: nat, f: string -> Option<T>)
    requires i < |lines|
    ensures FilterMap(lines[..i + 1], f)
            == FilterMap(lines[..i], f) + (if f(lines[i]).Some? then [f(lines[i]).value] else [])
  {
    assert lines[..i + 1][..i] == lines[..i];
  }

  /** A value is appended iff some line yields it. */
  lemma {:induction false} FilterMapMembers<T>(lines: seq<string>, f: string -> Option<T>, x: T)
    ensures x in FilterMap(lines, f) <==> exists i :: 0 <= i < |lines| && f(lines[i]) == Some(x)
    decreases |lines|
  {
    if lines != [] {
      var n := |lines| - 1;
      var init := lines[..n];
      FilterMapMembers(init, f, x);
      if x in FilterMap(init, f) {
        var i :| 0 <= i < n && f(init[i]) == Some(x);
        assert f(lines[i]) == Some(x);
      }
      if exists i :: 0 <= i < |lines| && f(lines[i]) == Some(x) {
        var i :| 0 <= i < |lines| && f(lines[i]) == Some(x);
        if i < n {
          assert f(init[i]) == Some(x);
        }
      }
    }
  }

  /** Whether a `LIST` line contributes a date directory, and which. */
  function DateDirOf(line: string, start: Bound, end: Bound): (r: Option<string>)
    ensures r.Some? ==> DirName(line) == r && KeepDateDir(r.value, start, end)
    ensures r.None? ==> DirName(line).None? || !KeepDateDir(DirName(line).value, start, end)
  {
    match DirName(line)
    case None => None
    case Some(name) => if KeepDateDir(name, start, end) then Some(name) else None
  }

  /** The names the directory loop appends, in the order of the lines. */
  function SelectDateDirs(lines: seq<string>, start: Bound, end: Bound): seq<string> {
    FilterMap(lines, line => DateDirOf(line, start, end))
  }

  lemma SelectDateDirsStep(lines: seq<string>, i: nat, start: Bound, end: Bound)
    requires i < |lines|
    ensures var d := DateDirOf(lines[i], start, end);
      SelectDateDirs(lines[..i + 1], start, end)
      == SelectDateDirs(lines[..i], start, end) + (if d.Some? then [d.value] else [])
  {
    FilterMapStep(lines, i, line => DateDirOf(line, start, end));
  }

  /** Whether `line` announces the directory `x` and `x` passes the date
      test. */
  predicate DateDirLine(line: string, x: string, start: Bound, end: Bound) {
    DirName(line) == Some(x) && KeepDateDir(x, start, end)
  }

  /** A name is selected iff some line announces it as a directory and it
      passes the date test. */
  lemma SelectDateDirsMembers(lines: seq<string>, start: Bound, end: Bound, x: string)
    ensures x in SelectDateDirs(lines, start, end) <==>
      exists i :: 0 <= i < |lines| && DateDirLine(lines[i], x, start, end)
  {
    var f := line => DateDirOf(line, start, end);
    FilterMapMembers(lines, f, x);
    forall i | 0 <= i < |lines| ensures f(lines[i]) == Some(x) <==> DateDirLine(lines[i], x, start, end) { }
  }

  /** `list_date_directories` on a successful listing: the selected names,
      sorted ascending. */
  function DateDirectories(lines: seq<string>, start: Bound, end: Bound): (r: seq<string>)
    ensures SortedStrings(r)
    ensures multiset(r) == multiset(SelectDateDirs(lines, start, end))
  {
    Sort(SelectDateDirs(lines, start, end))
  }

  /** Every returned name is an eight-digit valid date in the range, and every
      such directory of the listing is returned. */
  lemma DateDirectoriesMembers(lines: seq<string>, start: Bound, end: Bound, x: string)
    ensures x in DateDirectories(lines, start, end) <==>
      exists i :: 0 <= i < |lines| && DateDirLine(lines[i], x, start, end)
  {
    var sel := SelectDateDirs(lines, start, end);
    assert x in DateDirectories(lines, start, end) <==> x in multiset(sel);
    SelectDateDirsMembers(lines, start, end, x);
  }

  /** A directory named by `format_date_for_ftp` (years 1000 to 9999) is kept
      exactly when its date is in the range. */
  lemma FormattedDirKept(d: Date, start: Bound, end: Bound)
    requires ValidDate(d) && d.year >= 1000
    ensures KeepDateDir(FormatDateForFtp(d), start, end) <==> InRange(d, start, end)
  {
    FormatParseRoundTrip(d);
  }

  // ---------------------------------------------------------------------------
  // File lines

  /** The file name a `LIST` line announces, if the line is recognised as a
      file: a first token starting with `-`, or three or more tokens none of
      which is exactly `<DIR>`; the name is the last token. */
  function FileName(parts: seq<string>): (r: Option<string>)
    ensures r.Some? ==> |parts| > 0 && r.value == Last(parts)
    ensures r.Some? <==> |parts| > 0 && (StartsWith(parts[0], "-") || (|parts| >= 3 && DirMarker !in parts))
  {
    if parts == [] then None
    else if StartsWith(parts[0], "-") || (|parts| >= 3 && DirMarker !in parts) then Some(Last(parts))
    else None
  }

  /** The file filter: the lower-cased name ends in `.xml` and, when a
      pattern is given, the name matches it. */
  predicate XmlWanted(name: string, pattern: string) {
    EndsWith(Lower(name), XmlSuffix) && (pattern == [] || Glob(name, pattern))
  }

  /** The size column: on lines of five or more tokens, the first of the
      token positions 4, 2 and 3 that holds an integer; 0 otherwise. */
  function SizeOf(parts: seq<string>): (size: nat)
    ensures |parts| < 5 ==> size == 0
    ensures size != 0 ==> exists p :: p in {4, 2, 3} && p < |parts| && ParseNat(parts[p]) == Some(size)
    ensures |parts| >= 5 && ParseNat(parts[4]).Some? ==> size == ParseNat(parts[4]).value
    ensures |parts| >= 5 && ParseNat(parts[4]).None? && ParseNat(parts[2]).Some? ==> size == ParseNat(parts[2]).value
    ensures |parts| >= 5 && ParseNat(parts[4]).None? && ParseNat(parts[2]).None? && ParseNat(parts[3]).Some? ==>
              size == ParseNat(parts[3]).value
    ensures |parts| >= 5 && ParseNat(parts[4]).None? && ParseNat(parts[2]).None? && ParseNat(parts[3]).None? ==>
              size == 0
  {
    if |parts| < 5 then 0
    else if ParseNat(parts[4]).Some? then ParseNat(parts[4]).value
    else if ParseNat(parts[2]).Some? then ParseNat(parts[2]).value
    else if ParseNat(parts[3]).Some? then ParseNat(parts[3]).value
    else 0
  }

  /** A Unix-style line `-rw-r--r-- 1 user group SIZE Sep 3 10:00 NAME`
      reports the fifth token as the size. */
  lemma UnixFileSize(tokens: seq<string>)
    requires |tokens| >= 5 && IsDigits(tokens[4])
    ensures SizeOf(tokens) == DigitsValue(tokens[4])
  {
  }

  /** A Windows-style file line `09-03-25  10:00AM  SIZE  NAME` has four
      tokens, so its size is reported as 0 whatever the size column says. */
  lemma WindowsFileSizeIsZero(ts: seq<string>, seps: seq<string>)
    requires |seps| == |ts| + 1 && Words(ts) && Separators(seps)
    requires |ts| == 4 && !StartsWith(ts[0], "-") && DirMarker !in ts
    ensures var parts := Split(Interleave(ts, seps));
      FileName(parts) == Some(ts[3]) && SizeOf(parts) == 0
  {
    SplitInterleave(ts, seps);
  }

  /** A Windows-style file line whose name holds a space has five tokens: the
      name is cut to its last word, and the size is read from the third
      token, the size column, because the fifth is not a number. */
  lemma WindowsNameWithSpace()
    ensures var parts := Split(JoinSpaced(["09-03-25", "10:00AM", "1234", "my", "file.xml"]));
      FileName(parts) == Some("file.xml") && SizeOf(parts) == 1234
  {
    var ts := ["09-03-25", "10:00AM", "1234", "my", "file.xml"];
    assert Words(ts) by {
      assert NoSpace(ts[0]) && NoSpace(ts[1]) && NoSpace(ts[2]);
      assert NoSpace(ts[3]) && NoSpace(ts[4]);
    }
    SplitJoinSpaced(ts);
    SizeColumnExample(ts);
  }

  /** The five tokens of that line: the fifth is no number and the third
      reads as 1234. */
  lemma SizeColumnExample(ts: seq<string>)
    requires ts == ["09-03-25", "10:00AM", "1234", "my", "file.xml"]
    ensures FileName(ts) == Some("file.xml") && SizeOf(ts) == 1234
  {
    assert DirMarker !in ts;
    assert ParseNat(ts[4]).None? by {
      assert !IsDigit(ts[4][4]);
    }
    assert ParseNat(ts[2]) == Some(1234) by {
      assert IsDigits("1234");
      assert "1234"[..3] == "123" && "123"[..2] == "12" && "12"[..1] == "1" && "1"[..0] == "";
    }
  }

  /** What a `LIST` line contributes to the file list: the name and size of a
      wanted `.xml` file. */
  function FileEntry(line: string, pattern: string): (r: Option<(string, nat)>)
    ensures r.Some? ==> FileName(Split(line)) == Some(r.value.0) && XmlWanted(r.value.0, pattern)
                        && r.value.1 == SizeOf(Split(line))
    ensures r.None? ==> FileName(Split(line)).None? || !XmlWanted(FileName(Split(line)).value, pattern)
  {
    var parts := Split(line);
    match FileName(parts)
    case None => None
    case Some(name) => if XmlWanted(name, pattern) then Some((name, SizeOf(parts))) else None
  }

  /** The files the line loop appends, in the order of the lines. */
  function SelectFiles(lines: seq<string>, pattern: string): seq<(string, nat)> {
    FilterMap(lines, line => FileEntry(line, pattern))
  }

  lemma SelectFilesStep(lines: seq<string>, i: nat, pattern: string)
    requires i < |lines|
    ensures var e := FileEntry(lines[i], pattern);
      SelectFiles(lines[..i + 1], pattern) == SelectFiles(lines[..i], pattern) + (if e.Some? then [e.value] else [])
  {
    FilterMapStep(lines, i, line => FileEntry(line, pattern));
  }

  /** Every selected file is a wanted `.xml` file announced by some line, with
      that line's size; and every wanted file of the listing is selected. */
  lemma SelectFilesMembers(lines: seq<string>, pattern: string, f: (string, nat))
    ensures f in SelectFiles(lines, pattern) <==>
      exists i :: 0 <= i < |lines| && FileEntry(lines[i], pattern) == Some(f)
  {
    FilterMapMembers(lines, line => FileEntry(line, pattern), f);
  }

  /** Without a pattern the filter keeps exactly the names ending in `.xml`
      in any letter case. */
  lemma NoPatternKeepsXml(name: string)
    ensures XmlWanted(name, "") <==> EndsWith(Lower(name), ".xml")
  {
  }

  /** A pattern `*SUFFIX` without other wildcards keeps the `.xml` names that
      end with the suffix. */
  lemma StarPatternFilter(name: string, suffix: string)
    requires NoWildcard(suffix)
    ensures XmlWanted(name, "*" + suffix) <==> EndsWith(Lower(name), ".xml") && EndsWith(name, suffix)
  {
    GlobStarSuffix(name, suffix);
  }

  // ---------------------------------------------------------------------------
  // Paths

  /** The directories `list_xml_files` tries, in order. */
  function CandidatePaths(dateDir: string, sourceDir: string, sendDir: string): (ps: seq<string>)
    ensures |ps| == 5
    ensures forall i :: 0 <= i < |ps| ==> StartsWith(ps[i], "/")
  {
    ["/" + dateDir,
     "/" + sourceDir + "/" + dateDir,
     "/" + sourceDir + "/" + dateDir + "/" + sendDir,
     "/" + SourceDirectory + "/" + dateDir,
     "/" + SourceDirectory + "/" + dateDir + "/" + SendFileDirectory]
  }

  /** The directory `get_file_stream` opens. */
  function StreamDirectory(dateDir: string, sourceDir: string, sendDir: string): string {
    "/" + sourceDir + "/" + dateDir + "/" + sendDir
  }

  /** `get_file_stream` opens only the third candidate: files found in another
      candidate directory are not where the stream looks for them. */
  lemma StreamUsesThirdCandidate(dateDir: string, sourceDir: string, sendDir: string)
    ensures StreamDirectory(dateDir, sourceDir, sendDir) == CandidatePaths(dateDir, sourceDir, sendDir)[2]
    ensures CandidatePaths(dateDir, sourceDir, sendDir)[0] != StreamDirectory(dateDir, sourceDir, sendDir)
    ensures CandidatePaths(dateDir, sourceDir, sendDir)[1] != StreamDirectory(dateDir, sourceDir, sendDir)
  {
    assert |CandidatePaths(dateDir, sourceDir, sendDir)[1]| < |StreamDirectory(dateDir, sourceDir, sendDir)|;
  }

  /** The outcome of `list_xml_files` over the candidate paths: the files of
      the first directory that can be listed and holds at least one wanted
      file; `[]` when there is none.  `listing` maps each directory the
      server can change into to the lines of its `LIST` reply. */
  function FilesAt(paths: seq<string>, listing: map<string, seq<string>>, pattern: string)
    : (r: seq<(string, nat)>)
  {
    if paths == [] then []
    else if paths[0] in listing && SelectFiles(listing[paths[0]], pattern) != [] then
      SelectFiles(listing[paths[0]], pattern)
    else FilesAt(paths[1..], listing, pattern)
  }

  /** The files come from the first candidate with a wanted file: every
      earlier candidate is missing or holds none. */
  lemma {:induction false} FilesAtFirst(paths: seq<string>, listing: map<string, seq<string>>, pattern: string)
    ensures var r := FilesAt(paths, listing, pattern);
      (r == [] <==> forall i :: 0 <= i < |paths| ==> paths[i] !in listing || SelectFiles(listing[paths[i]], pattern) == [])
      && (r != [] ==> exists i :: 0 <= i < |paths| && paths[i] in listing
                        && r == SelectFiles(listing[paths[i]], pattern)
                        && forall j :: 0 <= j < i ==> paths[j] !in listing || SelectFiles(listing[paths[j]], pattern) == [])
  {
    if paths != [] {
      FilesAtFirst(paths[1..], listing, pattern);
      var r := FilesAt(paths, listing, pattern);
      if !(paths[0] in listing && SelectFiles(listing[paths[0]], pattern) != []) && r != [] {
        var i :| 0 <= i < |paths[1..]| && paths[1..][i] in listing
                 && r == SelectFiles(listing[paths[1..][i]], pattern)
                 && forall j :: 0 <= j < i ==> paths[1..][j] !in listing || SelectFiles(listing[paths[1..][j]], pattern) == [];
        assert paths[i + 1] == paths[1..][i];
        forall j | 0 <= j < i + 1 ensures paths[j] !in listing || SelectFiles(listing[paths[j]], pattern) == [] {
          if j > 0 { assert paths[j] == paths[1..][j - 1]; }
        }
      }
    }
  }
}
