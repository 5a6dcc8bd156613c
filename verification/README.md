# XML search over an FTP archive, in Dafny

The modelled system is a desktop tool that searches XML files on an FTP
server. The archive keeps one directory per day, named `YYYYMMDD` (by default
under `/SAMSUNG`), and each day's files sit in a `Send File` sub-directory.
A search picks a date range by name ("Last 7 Days", "Last Month", ...). It
lists the day directories in that range and lists each day's `.xml` files,
optionally filtered by a shell pattern. It then streams every file through a
search engine:

- a literal keyword search, case-insensitive unless asked otherwise;
- a regular-expression search;
- a search for a few forms of XPath expression.

Each file gives at most one result, the first match found in it. Connections
come from a small pool. User settings are merged over built-in defaults.

This project models that pipeline and proves properties of the model. The
modules follow the program's components:

| file | module | models |
|---|---|---|
| `wrappers.dfy` | `Wrappers` | `Option` (Python's `None`) and `Result` (a raised exception) |
| `text.dfy` | `Text` | the `str` operations the code relies on: `split`, `strip`, `lower`, `find`, `count`, `int`, `str`, `fnmatch`, `sorted` |
| `calendar.dfy` | `Calendar` | `datetime.date`: validity, ordinals, weekdays, day arithmetic, `strptime("%Y%m%d")` on eight digits |
| `date_utils.dfy` | `DateUtils` | `parse_date_range` and `format_date_for_ftp` |
| `settings.dfy` | `Settings` | `_deep_update`, the defaults and `load_settings` |
| `search_engine.dfy` | `SearchEngine` | `SearchResult`, `TextSearchEngine` (construction, `_search_in_chunk`, `search_in_stream`) |
| `xpath.dfy` | `XPath` | `XPathSearchEngine` and `_evaluate_xpath` over an element tree |
| `ftp_pool.dfy` | `FtpPool` | `FTPConnectionPool` |
| `ftp_listing.dfy` | `FtpListing` | how `FTPManager` classifies and filters `LIST` lines, and which paths it tries |
| `ftp_manager.dfy` | `FtpManager` | `FTPManager`: connect, reconnect, list directories and files, open and release a file stream |
| `search_worker.dfy` | `SearchWorker` | `SearchProgress` and `SearchWorker` |

Code that mutates state is modelled as classes and methods, proved against
specification functions:

- the pool's idle queue and counter;
- the manager's pool and connected flag;
- the progress counters;
- the worker's results and stop flag;
- the state kept by the chunk callback of `search_in_stream`.

Line loops, path loops and window loops are `while` loops whose invariants
tie them to those functions. Pure code is written as functions and lemmas:
line classification, date arithmetic, XPath evaluation and the settings
merge.

The outside world is an input:

- **The FTP server** is a value: the `LIST` lines of each directory it can
  enter, and the files it can send.
- **The network's answers** are functions of the connection request's
  number: does the oldest idle connection answer `NOOP`, and does a new
  connection open?
- **A downloaded file** is the sequence of chunks the transfer delivers, a
  flag for a transfer that breaks off, and the elements an XML parser
  reports at their end events.
- **Python's `re` module** is an oracle: whether a keyword compiles, and
  where a match attempted at a position ends.
- **The clock** is a parameter: the current day, or the current time in
  seconds.
- **A concurrent `stop()`** is the number of the first stop-flag check that
  sees the flag set.

The source has several defects. The model reproduces each as written and
shows it with a concrete case:

- **`SearchEngine.OverlapNewlinesCountedTwice`**: the line counter counts the
  overlap's newlines twice.
- **`SearchEngine.LongKeywordMissed`**: a keyword longer than the overlap is
  lost across a window boundary.
- **`FtpPool.DeadConnectionLeaks`**: a dead idle connection keeps its place in
  the counter.
- **`FtpPool.CounterGoesNegative`**: the counter can go negative.
- **`Settings.StaleDefaultsAfterLoad`**: the shallow copy in `load_settings`
  writes saved values into the defaults.
- **`XPath.FirstChildOnly`**: the absolute XPath walk never backtracks.
- **`XPath.StreamedLongPathNeverMatches`**: clearing elements makes multi-step
  paths unmatchable while streaming.
- **`FtpListing.StreamUsesThirdCandidate`**: the file stream opens only the
  third candidate directory.
- **`FtpListing.WindowsFileSizeIsZero`**: four-token Windows-style file lines
  always get size 0. A name with a space gives five tokens, and then only its
  last word is kept as the name (`FtpListing.WindowsNameWithSpace`).

## Model

| member | source | states |
|---|---|---|
| Text.Split | src/core/ftp_manager.py:254 | `line.split()` yields only non-empty tokens without whitespace, and yields nothing exactly when the line is all whitespace |
| Text.SplitJoinSpaced | src/core/ftp_manager.py:375 | a line written as whitespace-free tokens separated by single spaces splits back into exactly those tokens |
| Text.SplitInterleave | src/core/ftp_manager.py:254 | tokens written with any non-empty whitespace runs between them, and optional whitespace before and after, split back into exactly those tokens |
| Text.SplitSpaces | src/core/ftp_manager.py:254 | leading whitespace does not change the split |
| Text.StripRight | src/core/search_engine.py:47 | `rstrip` leaves a prefix of the text that does not end in whitespace, and everything it removes is whitespace |
| Text.Strip | src/core/search_engine.py:47 | `strip` gives a text no longer than the input that neither starts nor ends with whitespace |
| Text.StripSlice | src/core/search_engine.py:47 | `strip` gives a slice of the text, and every character before or after the slice is whitespace |
| Text.StripIdempotent | src/core/search_engine.py:216 | stripping an already stripped keyword or expression changes nothing |
| Text.Lower | src/core/search_engine.py:81 | lower-casing keeps the length |
| Text.LowerIdempotent | src/core/search_engine.py:80-83 | the keywords lower-cased at line 81 are unchanged by the second lowering at line 83 |
| Text.LowerSlice | src/core/search_engine.py:160 | lower-casing commutes with slicing, so indexes into the folded text are indexes into the text |
| Text.FindFrom | src/core/search_engine.py:194 | the first occurrence at or after a position, and no occurrence before it |
| Text.Find | src/core/search_engine.py:193-194 | `k in t` holds iff `find` gives an index; the index is the first occurrence |
| Text.OccursInSlice | src/core/search_engine.py:117 | an occurrence inside a window is an occurrence in the buffer shifted by the window's start, and conversely for occurrences that fit in the window |
| Text.ParseNat | src/core/ftp_manager.py:413 | `int(token)` succeeds exactly on digit strings |
| Text.Decimal | src/utils/date_utils.py:48 | the unpadded decimal rendering consists of digits only |
| Text.DecimalRoundTrip | src/utils/date_utils.py:48 | reading back the rendering of `n` gives `n` |
| Text.DecimalLength4 | src/utils/date_utils.py:48 | years 1000 to 9999 render as exactly four digits |
| Text.DecimalOfDigits | src/core/ftp_manager.py:302 | a digit string without a leading zero is the rendering of its value |
| Text.GlobLiteral | src/core/ftp_manager.py:400-404 | a pattern without wildcards matches exactly the name equal to it |
| Text.GlobStarSuffix | src/core/ftp_manager.py:400-404 | the pattern `*suffix` matches exactly the names ending in the suffix |
| Text.LexLeTotal | src/core/ftp_manager.py:322 | Python's string order is total |
| Text.LexLeTransitive | src/core/ftp_manager.py:322 | Python's string order is transitive |
| Text.Insert | src/core/ftp_manager.py:322 | insertion adds exactly one copy of the element |
| Text.InsertSorted | src/core/ftp_manager.py:322 | insertion into a sorted list keeps it sorted |
| Text.Sort | src/core/ftp_manager.py:322 | `sorted(date_dirs)` is ascending and a permutation of its input |
| Calendar.Weekday | src/utils/date_utils.py:18 | `weekday()` lies in 0..6 |
| Calendar.WeekdayExample | src/utils/date_utils.py:18 | 1 September 2025, a Monday, has weekday 0 |
| Calendar.OrdinalPositive | src/utils/date_utils.py:15 | every valid date has ordinal at least 1; only 0001-01-01 has ordinal 1 |
| Calendar.PrevDayOrdinal | src/utils/date_utils.py:29 | the day before a valid date other than 0001-01-01 is valid and one ordinal earlier |
| Calendar.NewYearOrdinal | src/utils/date_utils.py:29 | 31 December is one ordinal before 1 January of the next year |
| Calendar.NextDayOrdinal | src/utils/date_utils.py:22 | the day after a valid date other than 9999-12-31 is valid and one ordinal later |
| Calendar.SubDays | src/utils/date_utils.py:15-36 | `d - timedelta(days=n)` is a valid date `n` ordinals earlier |
| Calendar.AddDays | src/utils/date_utils.py:22 | `d + timedelta(days=n)` is a valid date `n` ordinals later |
| Calendar.DateLtOrdinal | src/core/ftp_manager.py:306 | a date earlier field by field has a smaller ordinal |
| Calendar.DateLeOrdinal | src/core/ftp_manager.py:306 | comparing valid dates field by field agrees with comparing their ordinals, both ways |
| Calendar.ParseYmd | src/core/ftp_manager.py:299-302 | `strptime(name, "%Y%m%d")` on eight digits gives only valid dates |
| DateUtils.ParseDateRange | src/utils/date_utils.py:8-40 | both ends of every range are valid dates |
| DateUtils.RangeOrdered | src/utils/date_utils.py:8-40 | for every range text the start is no later than the end, and the end is no later than today |
| DateUtils.DayCountRanges | src/utils/date_utils.py:12-40 | "Today" and unrecognised texts give (today, today); "Yesterday" gives the day before twice; "Last 7 Days" and "Last 30 Days" end today and span 7 and 30 days |
| DateUtils.MonthStart | src/utils/date_utils.py:25 | the first of a date's month is valid and `day - 1` ordinals earlier |
| DateUtils.WeekdayBack | src/utils/date_utils.py:18-21 | stepping back by the weekday, or by a further week, lands on a Monday; one day less lands on a Sunday |
| DateUtils.ThisWeekRange | src/utils/date_utils.py:17-19 | "This Week" runs from the Monday of the current week to today |
| DateUtils.LastWeekOrdinals | src/utils/date_utils.py:20-23 | "Last Week" starts `weekday + 7` days before today and ends 6 days after its start |
| DateUtils.LastWeekRange | src/utils/date_utils.py:20-23 | "Last Week" runs from a Monday to a Sunday and ends the day before the Monday that starts "This Week" |
| DateUtils.MonthRanges | src/utils/date_utils.py:24-31 | "This Month" starts on day 1 and ends today; "Last Month" runs from the first to the last day of the previous month, across a year boundary in January |
| DateUtils.Pad2 | src/utils/date_utils.py:48 | `%m` and `%d` give two digits |
| DateUtils.Pad2Value | src/utils/date_utils.py:48 | reading back a two-digit field gives the number |
| DateUtils.FormatDateForFtp | src/utils/date_utils.py:46-48 | the directory name of a date is all digits, eight of them for years 1000 to 9999; its partners FormatParseRoundTrip, ParseFormatRoundTrip and FormatExample state what the digits are |
| DateUtils.FormatParseRoundTrip | src/utils/date_utils.py:46-48 | for years 1000 to 9999 the directory name has eight digits and parsing it with the listing's `%Y%m%d` rule gives back the date |
| DateUtils.ParseFormatRoundTrip | src/core/ftp_manager.py:299-302 | an eight-digit name that parses and has no leading zero is the name `format_date_for_ftp` gives its date |
| DateUtils.FormatExample | tests/test_basic.py:35-39 | 2025-09-03 is formatted as `20250903` |
| Settings.DeepUpdate | src/utils/settings_manager.py:66-72 | the key loop leaves exactly the recursive merge `Merged(base, update)` |
| Settings.MergedKeys | src/utils/settings_manager.py:68-72 | after the merge every key of either side is present, and only those |
| Settings.MergeEmpty | src/utils/settings_manager.py:66-72 | an empty update changes nothing |
| Settings.MergeSelf | src/utils/settings_manager.py:69-72 | merging a value with itself gives it back |
| Settings.MergeValueIdempotent | src/utils/settings_manager.py:69-72 | applying the same update twice equals applying it once, for any value |
| Settings.MergedIdempotent | src/utils/settings_manager.py:66-72 | applying the same update twice equals applying it once, for dictionaries |
| Settings.BaseOnlyKept | src/utils/settings_manager.py:68-72 | a value only the base holds survives at any nesting depth, when the update holds dictionaries or nothing on the way down |
| Settings.UpdateLeafWins | src/utils/settings_manager.py:69-72 | a non-dictionary value of the update ends up in the result at any nesting depth |
| Settings.Defaults | src/utils/settings_manager.py:14-36 | the defaults have exactly the keys `ftp`, `directories`, `search`, `ui` |
| Settings.SharedAfterMerge | src/utils/settings_manager.py:46-47 | the defaults after a merge into their shallow copy keep their keys |
| Settings.SettingsManager.constructor | src/utils/settings_manager.py:12-36 | a new manager holds the defaults |
| Settings.SettingsManager.LoadSettings | src/utils/settings_manager.py:38-54 | with a saved object the result is the merge over the defaults and keeps every default key, and the defaults' shared dictionaries take the merge too; with no usable file the defaults are returned unchanged |
| Settings.StaleDefaultsAfterLoad | src/utils/settings_manager.py:46 | after one load with a saved `ftp.host`, a load without a file still returns that host |
| SearchEngine.FilePath | src/core/search_engine.py:40 | the file path is `/date_dir/Send File/filename`, with no source directory |
| SearchEngine.Fold | src/core/search_engine.py:160 | the searched text has the chunk's length |
| SearchEngine.MatchEnd | src/core/search_engine.py:165 | a match attempted at a position ends within the text, at or after that position |
| SearchEngine.RegexSearch | src/core/search_engine.py:165 | `pattern.search` finds the leftmost position at which the pattern matches, and no earlier one |
| SearchEngine.EscapedSearchIsFind | src/core/search_engine.py:67-72 | a keyword that does not compile is searched as plain text: its leftmost match is its first (case-folded) occurrence |
| SearchEngine.CleanKeywords | src/core/search_engine.py:47 | the cleaned keywords are non-empty, stripped, and no more than the inputs |
| SearchEngine.CleanKeywordsMembers | src/core/search_engine.py:47 | the cleaned list holds exactly the non-blank stripped inputs |
| SearchEngine.CleanKeywordKept | src/core/search_engine.py:47 | every non-blank input survives, stripped |
| SearchEngine.CleanKeywordOrigin | src/core/search_engine.py:47 | every cleaned keyword is the stripped form of some input |
| SearchEngine.CleanKeywordsEmpty | src/core/search_engine.py:53-54 | nothing is left exactly when every input is blank |
| SearchEngine.PatternFor | src/core/search_engine.py:63-72 | the keyword is compiled as given iff it compiles; otherwise its escaped form is used |
| SearchEngine.NewTextEngine | src/core/search_engine.py:45-87 | construction fails with "At least one keyword is required" iff every keyword is blank; a regex engine has one pattern per keyword, in order; a case-insensitive literal engine holds the lower-cased keywords |
| SearchEngine.NewTextEngineValid | src/core/search_engine.py:45-87 | a constructed engine has non-empty keywords and, in regex mode, one pattern per keyword |
| SearchEngine.Keys | src/core/search_engine.py:192 | one search word per keyword, of the keyword's length |
| SearchEngine.FirstHit | src/core/search_engine.py:191-194 | the first keyword in list order that occurs, at its first occurrence; none iff no keyword occurs |
| SearchEngine.FirstPatternHit | src/core/search_engine.py:164-166 | the first pattern in list order that matches, with its leftmost match; none iff no pattern matches |
| SearchEngine.Context | src/core/search_engine.py:198-200 | the context is at most the match plus 50 characters on each side |
| SearchEngine.ChunkSearch | src/core/search_engine.py:154-210 | a result names the searched file and lies on or after the chunk's first line |
| SearchEngine.LiteralChunkSpec | src/core/search_engine.py:189-205 | the literal search reports a match iff some keyword occurs in the case-folded chunk; the match is a "Text Match" on a line of the chunk, with context at most the keyword plus 100 characters |
| SearchEngine.RegexChunkSpec | src/core/search_engine.py:162-171 | the regex search reports a match iff some pattern matches; it is a "Regex Match" on a line of the chunk whose content is a pattern's leftmost match |
| SearchEngine.LowerKeepsNewlines | src/core/search_engine.py:195 | lower-casing keeps the newlines, so the line is counted on the original text |
| SearchEngine.SearchInChunk | src/core/search_engine.py:154-210 | `_search_in_chunk` returns exactly the chunk search's result |
| SearchEngine.SearchPatterns | src/core/search_engine.py:164-171 | the pattern loop returns at the first pattern that matches, as specified |
| SearchEngine.SearchKeywords | src/core/search_engine.py:191-205 | the keyword loop returns at the first keyword that occurs, as specified |
| SearchEngine.ScanStamps | src/core/search_engine.py:113-147 | every result of a scan of windows names the searched file and lies on or after line 1 |
| SearchEngine.ScanStep | src/core/search_engine.py:117-132 | one window step: a hit in the window is the result, otherwise the scan continues from the overlap with the line counter advanced by the window's newlines |
| SearchEngine.OutcomeStep | src/core/search_engine.py:113-132 | searching the head window and moving on keeps the eventual outcome; an earlier result is never replaced |
| SearchEngine.StreamSearch.constructor | src/core/search_engine.py:93-95 | the callback state starts with an empty buffer, line 1 and no result |
| SearchEngine.StreamSearch.OnChunk | src/core/search_engine.py:98-132 | a chunk callback keeps the eventual outcome of the stream; a result once found is never replaced; after an early termination later chunks are ignored |
| SearchEngine.StreamSearch.SearchWindow | src/core/search_engine.py:117-132 | the buffer keeps the window's last `CHUNK_OVERLAP_SIZE` characters onward; the first result is kept; without a stop the line counter advances by the window's newlines |
| SearchEngine.SearchInStream | src/core/search_engine.py:89-152 | the result is `None` when the transfer fails, else the scan of the whole stream in overlapping windows from line 1, with or without early termination |
| SearchEngine.OccurrenceAfterWindow | src/core/search_engine.py:117-118 | an occurrence no longer than the overlap that is not inside a window lies inside the text the next window starts with |
| SearchEngine.FoldSlice | src/core/search_engine.py:160 | case-folding commutes with taking a slice |
| SearchEngine.LiteralSearchReportsKeywords | src/core/search_engine.py:189-205 | the literal chunk search reports exactly the windows in which some keyword occurs |
| SearchEngine.ScanCovers | src/core/search_engine.py:113-147 | a scan whose window search reports a property no window boundary can hide finds something iff the whole text has the property |
| SearchEngine.KeywordsLocal | src/core/search_engine.py:117-118 | keyword occurrence is such a property when no keyword is longer than the overlap |
| SearchEngine.NoKeywordInEmpty | src/core/search_engine.py:146 | no non-empty keyword occurs in the empty remainder |
| SearchEngine.ScanCoverage | src/core/search_engine.py:113-147 | in literal mode, with no keyword longer than the overlap, the stream search reports a result iff some keyword occurs in the case-folded stream |
| SearchEngine.CoverageInWindow | src/core/search_engine.py:117 | a keyword in the first window is a keyword in the text |
| SearchEngine.CoverageAfterWindow | src/core/search_engine.py:118 | with no keyword in the first window, a short keyword occurs in the text iff it occurs from the next window's start |
| SearchEngine.KeywordAfterWindow | src/core/search_engine.py:118 | the same for one keyword on the case-folded text |
| SearchEngine.FoldEnds | src/core/search_engine.py:160 | folding a prefix or a suffix folds that part of the text |
| SearchEngine.LongKeywordMissed | src/core/search_engine.py:117-118 | with windows of 4 overlapping by 1, `cde` occurs in `abcdef` but the stream search reports nothing |
| SearchEngine.LongKeywordWindowMisses | src/core/search_engine.py:117-118 | neither window `abcd` nor `def` holds `cde` |
| SearchEngine.StraddlingScan | src/core/search_engine.py:113-147 | the scan of `abcdef` searches `abcd` and then `def` |
| SearchEngine.OverlapNewlinesCountedTwice | src/core/search_engine.py:118-132 | with windows of 3 overlapping by 1, `k` on line 3 of `ab\n\nk` is reported on line 4 |
| SearchEngine.TwoWindowScan | src/core/search_engine.py:118-132 | the scan of `ab\n\nk` searches `ab\n` from line 1, then `\n\nk` from line 2 |
| SearchEngine.FirstWindowMisses | src/core/search_engine.py:191-193 | the first window holds no `k` |
| SearchEngine.SecondWindowHits | src/core/search_engine.py:195 | the second window reports `k` on line 4 |
| XPath.SplitSlash | src/core/search_engine.py:273 | `split('/')` gives at least one part and no part contains `/` |
| XPath.SplitJoin | src/core/search_engine.py:273 | joining the parts with `/` gives the text back |
| XPath.SplitNoSlash | src/core/search_engine.py:273 | a text without `/` is its own single part |
| XPath.FirstWithTag | src/core/search_engine.py:276 | `find(tag)` gives the first child with the tag; none iff no child has it |
| XPath.EvaluateXPath | src/core/search_engine.py:261-285 | the evaluator with its step-by-step walk decides exactly `Matches` |
| XPath.DeepTagsMember | src/core/search_engine.py:270 | the tags below the later children are those below some later child |
| XPath.TagsBelowMember | src/core/search_engine.py:270 | a tag lies below an element iff some child has it or it lies below some child |
| XPath.DescendantTag | src/core/search_engine.py:270 | the descendant search for one tag holds iff some proper descendant has the tag |
| XPath.DescendantExpr | src/core/search_engine.py:267-270 | `//t` holds iff some proper descendant has tag `t` |
| XPath.BareTagExpr | src/core/search_engine.py:280-282 | a bare tag holds iff some direct child has that tag |
| XPath.WalkIsChildPath | src/core/search_engine.py:271-279 | a successful absolute walk is a chain of children with the given tags, so the relative form holds too |
| XPath.FirstChildOnly | src/core/search_engine.py:271-279 | in `<r><a/><a><b/></a></r>` the relative `a/b` is found but `/a/b` follows the first `a` and fails |
| XPath.SplitTwoSteps | src/core/search_engine.py:273 | `a/b` splits into `a` and `b` |
| XPath.WalkFirstChild | src/core/search_engine.py:275-278 | the walk for `a`, `b` enters the first `a`, which has no child `b` |
| XPath.NewXPathEngine | src/core/search_engine.py:215-218 | construction fails with "At least one XPath expression is required" iff every expression is blank; otherwise the expressions are exactly the non-blank stripped inputs |
| XPath.Cleared | src/core/search_engine.py:251 | at its end event an element keeps its tag and its children's tags, and its children have no children |
| XPath.EndEventsShallow | src/core/search_engine.py:235-251 | no element seen at an end event has grandchildren |
| XPath.ShallowNoLongPath | src/core/search_engine.py:261-285 | on an element without grandchildren no path of two or more steps is found, in any form |
| XPath.StreamedLongPathNeverMatches | src/core/search_engine.py:235-251 | because of `elem.clear()`, a multi-step path never matches any end event of a document |
| XPath.StreamTagsConcat | src/core/search_engine.py:235 | the child tags seen over two event runs are the union of each run's |
| XPath.StreamTagsMember | src/core/search_engine.py:235 | a tag is seen iff some event's element has a child with that tag |
| XPath.StreamTagsOfEvents | src/core/search_engine.py:235-251 | over the end events of a document the children seen are exactly the root's proper descendants |
| XPath.ShallowDescendant | src/core/search_engine.py:270 | on an element without grandchildren `//t` means a child with tag `t` |
| XPath.StreamedDescendant | src/core/search_engine.py:235-251 | streamed `//t` matches some end event iff some element other than the root has tag `t` |
| XPath.FirstXPathHit | src/core/search_engine.py:235-246 | the first end event, then the first expression in list order, that matches; none iff no pair matches |
| XPath.FirstExprHit | src/core/search_engine.py:238-246 | the first expression in list order that matches the element; none iff none matches |
| XPath.XPathHit | src/core/search_engine.py:243-246 | a hit is an "XPath Match" with content `XPath: expr` on line 0, for the searched file |
| XPath.XPathSearchInStream | src/core/search_engine.py:220-259 | the streamed search gives nothing when the transfer fails, else the hit of the first matching end event and expression |
| XPath.FirstMatchingExpression | src/core/search_engine.py:238-248 | the expression loop for one end event returns the first expression that matches |
| XPath.XPathHitAt | src/core/search_engine.py:235-251 | the search from event `k` checks that event's expressions before the later events |
| FtpPool.ConnectionPool.constructor | src/core/ftp_manager.py:92-101 | a new pool has no idle connection and a zero counter |
| FtpPool.UseAndReturn | src/core/ftp_manager.py:103-134 | a request whose connection is given back keeps the pool invariant; a live idle connection moves from the front of the queue to the back with the counter unchanged; a new connection joins the back with the counter one higher |
| FtpPool.ConnectionPool.GetConnection | src/core/ftp_manager.py:103-124 | a live idle connection is handed out first; a dead one is dropped without adjusting the counter; otherwise, while the counter is below the pool size, a new connection is attempted and counted iff it opens; `None` otherwise; the pool's invariant (counter within capacity, idle queue bounded and connected) is kept |
| FtpPool.ConnectionPool.ReturnConnection | src/core/ftp_manager.py:126-134 | a connected session is re-queued, or disconnected with the counter decremented when the queue is full; a disconnected one is dropped |
| FtpPool.ConnectionPool.CloseAll | src/core/ftp_manager.py:136-145 | the idle queue is emptied and the counter set to 0 |
| FtpPool.DeadConnectionLeaks | src/core/ftp_manager.py:110-112 | after a connection dies idle, a pool of size 1 hands out nothing although a new connection would open |
| FtpPool.CounterGoesNegative | src/core/ftp_manager.py:133-145 | connections returned to a full queue after `close_all` drive the counter to -1 |
| FtpListing.OrDefault | src/core/ftp_manager.py:211 | an empty or missing directory argument selects the default |
| FtpListing.IndexOf | src/core/ftp_manager.py:276 | `parts.index(x)` is the first position of `x`; none iff `x` is absent |
| FtpListing.DirName | src/core/ftp_manager.py:253-293 | a recognised directory line names one of its tokens |
| FtpListing.DirNameNeedsMarker | src/core/ftp_manager.py:266-293 | only lines starting with `d` or holding `<DIR>` in some token name a directory |
| FtpListing.UnixDirLine | src/core/ftp_manager.py:266-268 | a Unix `d...` line, its columns padded with any whitespace runs, names its last token |
| FtpListing.WindowsDirLine | src/core/ftp_manager.py:270-278 | a line of three or more tokens not starting with `d`, padded with any whitespace runs, whose first `<DIR>` token is at any index names the token after it, and nothing when `<DIR>` is the last token |
| FtpListing.MarkerInsideDirLine | src/core/ftp_manager.py:280-290 | a line in neither of those styles with a token containing `<DIR>` names its last token |
| FtpListing.DayBoundsInRange | src/core/ftp_manager.py:214-226 | with `date` bounds the range holds exactly the days from the first to the last, both included |
| FtpListing.LateStartExcludesItsDay | src/core/ftp_manager.py:306 | a `datetime` start after midnight excludes its own day's directory |
| FtpListing.FilterMapMembers | src/core/ftp_manager.py:253-307 | a value is appended iff some line yields it |
| FtpListing.DateDirOf | src/core/ftp_manager.py:295-313 | a line contributes the name it announces iff that name passes the date test |
| FtpListing.SelectDateDirsMembers | src/core/ftp_manager.py:253-313 | a name is selected iff some line announces it as a directory and it passes the date test |
| FtpListing.DateDirectories | src/core/ftp_manager.py:322 | the result is sorted and a permutation of the selected names |
| FtpListing.DateDirectoriesMembers | src/core/ftp_manager.py:253-322 | a name is returned iff some line announces it as a directory and it passes the date test (eight digits, a valid `%Y%m%d` date, inside the range) |
| FtpListing.FormattedDirKept | src/core/ftp_manager.py:299-306 | the directory named by `format_date_for_ftp` (years 1000 to 9999) is kept iff its date is in the range |
| FtpListing.FileName | src/core/ftp_manager.py:385-395 | a line names a file iff its first token starts with `-` or it has three or more tokens and none is exactly `<DIR>`; the name is the last token |
| FtpListing.SizeOf | src/core/ftp_manager.py:406-418 | the size is 0 on lines of fewer than five tokens; otherwise it is the integer at token 4 if there is one, else at token 2, else at token 3, else 0 |
| FtpListing.UnixFileSize | src/core/ftp_manager.py:409-414 | a Unix line reports its fifth token as the size |
| FtpListing.WindowsFileSizeIsZero | src/core/ftp_manager.py:390-418 | a four-token Windows `date time size name` line is a file named `name` whose size is reported as 0 |
| FtpListing.WindowsNameWithSpace | src/core/ftp_manager.py:390-418 | `09-03-25 10:00AM 1234 my file.xml` is a file named `file.xml` of size 1234, read from the third token |
| FtpListing.FileEntry | src/core/ftp_manager.py:397-418 | a line contributes a file iff it names a file whose lower-cased name ends in `.xml` and matches the pattern when one is given |
| FtpListing.SelectFilesMembers | src/core/ftp_manager.py:374-418 | a file is selected iff some line contributes it |
| FtpListing.NoPatternKeepsXml | src/core/ftp_manager.py:398-400 | without a pattern exactly the names ending in `.xml`, in any case, are kept |
| FtpListing.StarPatternFilter | src/core/ftp_manager.py:398-404 | with the pattern `*suffix` the kept names end in `.xml` and in the suffix |
| FtpListing.CandidatePaths | src/core/ftp_manager.py:349-355 | five absolute candidate paths, in a fixed order |
| FtpListing.StreamUsesThirdCandidate | src/core/ftp_manager.py:468 | the stream opens only the third candidate, never the first or second |
| FtpListing.FilesAtFirst | src/core/ftp_manager.py:360-444 | the files come from the first candidate that can be listed and holds a wanted file; `[]` iff there is none |
| FtpManager.CollectDateDirs | src/core/ftp_manager.py:253-313 | the line loop appends exactly the selected date directories, in order |
| FtpManager.CollectFiles | src/core/ftp_manager.py:374-422 | the line loop appends exactly the wanted files, in order |
| FtpManager.CollectFirstFiles | src/core/ftp_manager.py:360-437 | the path loop stops at the first candidate that holds a wanted file |
| FtpManager.ReportedPathLacksSource | src/core/search_engine.py:40 | the path a result reports is the path of the opened file `/source/date/Send File/name` without its `/source` prefix, so the two differ |
| FtpManager.NextRequest | src/core/ftp_manager.py:103-134 | a request made where `k` earlier requests left the pool is granted iff the `k`-th grant condition holds, and giving its connection back leaves the pool where `k + 1` requests leave it |
| FtpManager.PoolAfterAfter | src/core/ftp_manager.py:103-134 | requests made in two runs leave the pool where one run of them all leaves it |
| FtpManager.PoolAfterStep | src/core/ftp_manager.py:103-134 | one more request steps the pool from where the earlier ones left it |
| FtpManager.Answered | src/core/ftp_manager.py:103-124 | one answer per request made |
| FtpManager.AnsweredAt | src/core/ftp_manager.py:103-124 | the `i`-th answer is the `i`-th request's when that request is granted, and the refusal value otherwise |
| FtpManager.AnsweredStep | src/core/ftp_manager.py:103-124 | one more request appends its answer |
| FtpManager.AnsweredWithin | src/core/ftp_manager.py:103-124 | each answer is its request's or the refusal value |
| FtpManager.AnsweredReliable | src/core/ftp_manager.py:103-124 | on a network where every connection answers and opens, from a pool that can serve, every request gets its own answer |
| FtpManager.ConnectedPoolReady | src/core/ftp_manager.py:154-165 | the pool a successful `connect` leaves can serve a request; a pool with no idle connection and a full counter cannot |
| FtpManager.ReliableGrants | src/core/ftp_manager.py:103-134 | on such a network a pool that can serve grants every request in a run and still can serve after it |
| FtpManager.FtpManager.constructor | src/core/ftp_manager.py:150-152 | no pool and not connected |
| FtpManager.FtpManager.Acquire | src/core/ftp_manager.py:103-124 | a connection is handed out iff the pool grants it, and is then counted as lent; the pool's idle queue, counter and attempts are those of `get_connection` on the old state |
| FtpManager.FtpManager.Connect | src/core/ftp_manager.py:154-172 | a fresh default-size pool; success iff the first connection opens, which then waits idle and sets the connected flag; on failure the flag keeps its old value |
| FtpManager.FtpManager.Disconnect | src/core/ftp_manager.py:174-178 | the pool is emptied and the manager is not connected |
| FtpManager.FtpManager.Reconnect | src/core/ftp_manager.py:180-203 | without a pool nothing changes and the result is false; otherwise the result is a fresh connect's |
| FtpManager.FtpManager.ListDateDirectories | src/core/ftp_manager.py:205-328 | `[]` when not connected or no connection is had; otherwise the sorted date directories of the source listing; the connection is given back, so the pool state is that of one request that returns its connection, and unchanged when not connected |
| FtpManager.FtpManager.ListXmlFiles | src/core/ftp_manager.py:330-450 | `[]` when not connected or no connection is had; otherwise the files of the first candidate with a wanted file; the connection is given back, so the pool state is that of one request that returns its connection, and unchanged when not connected |
| FtpManager.FtpManager.GetFileStream | src/core/ftp_manager.py:452-486 | the file in `/source/date/send` when it can be reached, with its connection still lent and the pool state that of `get_connection`; otherwise nothing, and the connection is given back, so the pool state is that of one request that returns its connection |
| FtpManager.FtpManager.ReleaseFileStream | src/core/ftp_manager.py:488-491 | the stream's connection is given back: it leaves the lent connections, and the pool state is that of `return_connection` |
| SearchWorker.StatusOf | src/core/search_worker.py:59-72 | the status copies the counters, reports `errors_count == len(errors)`, elapsed 0 while the start time is unset (or 0, which Python treats as false), and `now - start_time` otherwise |
| SearchWorker.NoElapsedBeforeTotals | src/core/search_worker.py:61 | a fresh tracker reports elapsed 0 whenever asked |
| SearchWorker.Initial | src/core/search_worker.py:23-33 | a fresh tracker has no start time and no errors |
| SearchWorker.SearchProgress.constructor | src/core/search_worker.py:23-33 | all counters zero, names empty, no start time, no errors |
| SearchWorker.SearchProgress.SetTotals | src/core/search_worker.py:35-39 | sets both totals and the start time, nothing else |
| SearchWorker.SearchProgress.UpdateDirectory | src/core/search_worker.py:41-44 | sets the current directory and adds exactly 1 to the processed directories, nothing else |
| SearchWorker.SearchProgress.UpdateFile | src/core/search_worker.py:46-49 | sets the current file and adds exactly 1 to the processed files, nothing else |
| SearchWorker.SearchProgress.AddMatch | src/core/search_worker.py:51-53 | adds exactly 1 to the matches, nothing else |
| SearchWorker.SearchProgress.AddError | src/core/search_worker.py:55-57 | appends exactly one error, nothing else |
| SearchWorker.SearchProgress.GetStatus | src/core/search_worker.py:59-72 | reports the status of the current state |
| SearchWorker.CreateSearchEngine | src/core/search_worker.py:191-203 | `xpath` builds the XPath engine, `regex` the regex text engine, anything else the literal one; creation fails iff every keyword is blank |
| SearchWorker.EngineOutcomeStamps | src/core/search_worker.py:214-221 | a failed transfer reports nothing; a result names the searched file |
| SearchWorker.TasksInMembers | src/core/search_worker.py:135-141 | a directory contributes exactly its files no larger than `MAX_FILE_SIZE_MB` MiB |
| SearchWorker.TasksOfAppend | src/core/search_worker.py:130-141 | tasks follow directory order |
| SearchWorker.CollectTasks | src/core/search_worker.py:135-142 | the file loop appends the directory's tasks in listing order |
| SearchWorker.TasksOfMembers | src/core/search_worker.py:127-142 | every task is a listed file within the size cutoff, and every such file is a task |
| SearchWorker.TasksOfStep | src/core/search_worker.py:130-141 | one more listed directory appends its tasks |
| SearchWorker.ListedTasksWithin | src/core/search_worker.py:127-142 | listings that are each the directory's XML files or empty give only tasks of the full listings |
| SearchWorker.Found | src/core/search_worker.py:168-170 | no more results than searched files |
| SearchWorker.FoundMembers | src/core/search_worker.py:168-170 | a result is collected iff some searched file reported it |
| SearchWorker.FoundNone | src/core/search_worker.py:168 | files that all reported nothing leave nothing to collect |
| SearchWorker.Collected | src/core/search_worker.py:166-173 | collecting a file adds 1 to the processed files, sets the current file, adds 1 to the matches exactly when there is a result, and changes nothing else |
| SearchWorker.CollectedAllCounts | src/core/search_worker.py:159-173 | after collecting, the processed files grew by the number of files and the matches by the number of results |
| SearchWorker.FoundFromFiles | src/core/search_worker.py:159-173 | every collected result is the result of searching the file of one of the tasks |
| SearchWorker.FoundFromFile | src/core/search_worker.py:159-173 | a collected result among outcomes each reported by their task's file is the result of one task's file |
| SearchWorker.AnsweredReported | src/core/search_worker.py:151-173 | each outcome of searching the tasks' files on successive requests is nothing or its own task's file result |
| SearchWorker.CollectStep | src/core/search_worker.py:159-173 | one more collected task extends the collected progress and the results by exactly that task's outcome |
| SearchWorker.CollectingStep | src/core/search_worker.py:159-173 | collecting one more outcome keeps the collection loop's progress and results equal to the collection of the outcomes so far |
| SearchWorker.SearchWorker.constructor | src/core/search_worker.py:77-82 | a fresh tracker, no results, the stop flag clear |
| SearchWorker.SearchWorker.Stop | src/core/search_worker.py:231-234 | sets the stop flag and changes nothing else |
| SearchWorker.SearchWorker.StopSeen | src/core/search_worker.py:131 | the check sees the flag iff it was set or the concurrent stop has happened by this check |
| SearchWorker.SearchWorker.SearchFile | src/core/search_worker.py:205-229 | nothing is opened once a stop is seen or without a connection; otherwise one request is made and the result is the file's search result iff the pool grants it, else nothing; the pool ends with the connections it had lent before, in the state one returning request leaves |
| SearchWorker.SearchWorker.BuildTasks | src/core/search_worker.py:127-142 | the tasks are those of the directories listed before the first stop, in order; the `i`-th listing is `list_xml_files` of the `i`-th directory when the `i`-th request is granted and empty otherwise; one request per directory listed steps the pool; the connections lent are those lent before |
| SearchWorker.SearchWorker.ListNext | src/core/search_worker.py:130-134 | unless a stop is seen, one directory is listed on one request: its XML files when the request is granted and nothing otherwise, and the pool steps as for that request |
| SearchWorker.SearchWorker.CollectNext | src/core/search_worker.py:159-173 | the file is searched unless a stop was already seen; the outcome is the file's result or nothing; unless a stop is seen at the collection check, its result is appended once and counted once and the file is counted; otherwise results and progress are unchanged |
| SearchWorker.SearchWorker.Record | src/core/search_worker.py:166-173 | appends the result if any, counts the match, and counts the file |
| SearchWorker.SearchWorker.CollectResults | src/core/search_worker.py:151-182 | the results and counters are the collected outcomes in order; the `i`-th outcome is the `i`-th task's file result when the `i`-th request is granted and nothing otherwise; the number collected is fixed by when the stop is seen, all tasks without one; the pool steps once per request made |
| SearchWorker.SearchWorker.CollectStep | src/core/search_worker.py:159-173 | one task of the collection loop: a request is made iff no stop was seen before the search; unless a stop is seen at the collection check, the outcome extends the answers to the requests in sequence and the collected state |
| SearchWorker.SearchWorker.CollectDirectories | src/core/search_worker.py:127-185 | `directories_total` is the number of directories and `files_total` the number of tasks; the engine's refusal ends the search with no results; otherwise the results are the collected outcomes, each the answer to its own request, and the matches grow by exactly their number |
| SearchWorker.SearchWorker.SearchDirectories | src/core/search_worker.py:127-185 | the totals are set; the engine's refusal ends the search with no results; every result is its own task's file result; every task searched is a file of a date directory within the size cutoff; on a network where every connection answers and opens, from a pool that can serve and with no stop, the tasks are all those files and the result is their results in directory and listing order |
| SearchWorker.SearchWorker.Search | src/core/search_worker.py:84-189 | an empty keyword list is refused with "No keywords provided" before any listing; no date directory (none found, no connection, or the request refused) gives `Ok([])`; otherwise the totals are the directory and task counts and the search is refused iff every keyword is blank, with the engine's message; every result is its own task's file result; on a reliable network with a pool that can serve and no stop, the result is the results of every such file in directory and listing order |

## Left out

- FTP network I/O (`ftplib` connect, login, `cwd`, `retrlines`, `retrbinary`, `size`, `NOOP`) is replaced by the `Server` value and the `Network` answers. The per-connection `FTPConnection` class is reduced to an identity and a connected flag.
- `FTPManager.close_all_connections` and `FTPManager.download_file` are not part of this model: the search does not use them. The same goes for `SearchWorker.get_progress` and `get_results`, which only return `get_status()` and a copy of the results.
- Concurrency: the thread pool, `as_completed`, locks and the stop `Event` are sequentialised. Files are searched in task order, each followed by its collection. A concurrent `stop()` is the index of the first flag check that sees it.
- After a stop ends the collection loop, the source's executor still runs the remaining `_search_file` calls; their effects on the pool are not modelled.
- `progress_callback` and the error branch of the collection loop (`add_error`) are left out: with the model's inputs, `future.result()` never raises, because `_search_file` catches every exception.
- The Aho-Corasick path of the literal search is left out. The model takes the module as absent, which selects the `find` fallback. The Aho-Corasick path reports matches in end-position order and would not agree with the fallback.
- Regular expressions are an oracle (`RegexLib`): whether a pattern compiles and where a match attempted at a position ends. Python's regex semantics are not modelled.
- UTF-8 decoding with `errors='ignore'` and Unicode `lower()` are left out. Bytes are characters, which matches UTF-8 on ASCII content, and only ASCII letters are case-folded.
- XML parsing (`iterparse`) is an input: the sequence of elements at their end events, with a parse error cutting it short. XPath steps other than plain tag names (`*`, `.`, predicates, namespaces, a trailing `/`) are not modelled and evaluate to false.
- `fnmatch` is modelled with `*` and `?` only, case-sensitively as on POSIX. Character classes `[...]` are not modelled.
- `int()` on a size token accepts only ASCII digit strings, not signs, underscores or surrounding whitespace.
- JSON file reading and writing in `SettingsManager` is left out, as is `save_settings`. The parsed file content is an input, and `None` stands for a missing or unreadable file. JSON numbers are integers.
- `time.time()` is a parameter in whole seconds.
- DateUtils.ParseDateRange: requires the current day to be in year 2 or later. The source raises `OverflowError` for early dates in year 1, which a real clock never gives.
- `format_date_for_display` and the UI, export, logging and local-file modules are outside the modelled core.
- Configuration constants from `config/settings.py` are constants here: pool size 10, chunk 256 KiB, overlap 1024, 50 MiB cutoff, `SAMSUNG`, `Send File`. The chunk size is a parameter of the stream search with `CHUNK_OVERLAP_SIZE < chunk_size` as precondition, because the window loop only terminates under it.
- FtpListing.DirName: its own contract states only that the name is a token of the line; the rules for each line style are stated by UnixDirLine, WindowsDirLine, MarkerInsideDirLine and DirNameNeedsMarker.
- SearchEngine.ScanCoverage: proved for the literal search only, and only when no keyword is longer than the overlap. For longer keywords `LongKeywordMissed` shows the property fails. The regex path's coverage depends on the oracle.
