/** The text search engine (`src/core/search_engine.py`): keyword
    preparation, the search of one chunk, and the chunked search of a file
    stream with overlapping windows, a running line counter and early
    termination.  Regular expressions are an input: the model knows of the
    `re` module only whether a pattern compiles and where an attempted match
    ends. */
module SearchEngine {
  import opened Wrappers
  import opened Text

  /** `DEFAULT_CHUNK_SIZE` and `CHUNK_OVERLAP_SIZE` (config/settings.py). */
  const DefaultChunkSize: nat := 262144
  const ChunkOverlapSize: nat := 1024

  /** The `match_type` of the results of the two text searches. */
  const TextMatch := "Text Match"
  const RegexMatch := "Regex Match"

  /** Characters of context kept on each side of a literal match. */
  const ContextRadius: nat := 50

  /** `SearchResult`: where a match was found and what it looked like. */
  datatype SearchResult = SearchResult(
    dateDir: string,
    filename: string,
    matchType: string,
    matchContent: string,
    lineNumber: int)

  /** `SearchResult.file_path`: the file inside the date directory's send
      folder, always under the fixed folder name `Send File` and without the
      source directory the file was read from. */
  function FilePath(r: SearchResult): (p: string)
    ensures StartsWith(p, "/" + r.dateDir + "/")
    ensures OccursAt(p, "/Send File/", |r.dateDir| + 1)
    ensures EndsWith(p, "/" + r.filename)
    ensures |p| == |r.dateDir| + |"/Send File/"| + |r.filename| + 1
  {
    var p := "/" + r.dateDir + "/Send File/" + r.filename;
    assert p == ("/" + r.dateDir + "/") + ("Send File/" + r.filename);
    assert p == ("/" + r.dateDir + "/Send File") + ("/" + r.filename);
    p
  }

  // ---------------------------------------------------------------------------
  // Patterns

  /** What the model takes from Python's `re` module: whether a keyword
      compiles as a pattern, and where a match of a compiled pattern attempted
      at a position ends (`None` when the attempt fails); the flag is
      `re.IGNORECASE`. */
  datatype RegexLib = RegexLib(
    compiles: string -> bool,
    matchAt: (string, bool, string, nat) -> Option<nat>)

  /** A compiled pattern: the keyword itself, or `re.escape(keyword)` when the
      keyword does not compile.  `ignoreCase` is `re.IGNORECASE`. */
  datatype Pattern =
    | Compiled(source: string, ignoreCase: bool)
    | Escaped(literal: string, ignoreCase: bool)

  /** The text the literal search looks at: as is when the search is case
      sensitive, lower-cased otherwise. */
  function Fold(caseSensitive: bool, s: string): (r: string)
    ensures |r| == |s|
  {
    if caseSensitive then s else Lower(s)
  }

  /** Where a match of `p` attempted at position `i` of `text` ends. */
  function MatchEnd(lib: RegexLib, p: Pattern, text: string, i: nat): (r: Option<nat>)
    requires i <= |text|
    ensures r.Some? ==> i <= r.value <= |text|
  {
    match p
    case Compiled(source, ic) =>
      var m := lib.matchAt(source, ic, text, i);
      if m.Some? && i <= m.value <= |text| then m else None
    case Escaped(k, ic) =>
      if OccursAt(Fold(!ic, text), Fold(!ic, k), i) then Some(i + |k|) else None
  }

  /** `pattern.search(text)` from position `from` on: the leftmost position at
      which the pattern matches, with the end of that match. */
  function RegexSearch(lib: RegexLib, p: Pattern, text: string, from: nat): (r: Option<(nat, nat)>)
    requires from <= |text| + 1
    ensures r.Some? ==> from <= r.value.0 <= r.value.1 <= |text|
    ensures r.Some? ==> MatchEnd(lib, p, text, r.value.0) == Some(r.value.1)
    ensures forall i :: from <= i <= |text| && (r.None? || i < r.value.0) ==> MatchEnd(lib, p, text, i).None?
    decreases |text| + 1 - from
  {
    if from > |text| then None
    else match MatchEnd(lib, p, text, from)
      case Some(e) => Some((from, e))
      case None => RegexSearch(lib, p, text, from + 1)
  }

  /** An escaped keyword is searched for as plain text: the regular-expression
      search finds the keyword's first occurrence, case-folded when the
      pattern ignores case. */
  lemma EscapedSearchIsFind(lib: RegexLib, k: string, ic: bool, text: string)
    ensures var f := Find(Fold(!ic, text), Fold(!ic, k));
      RegexSearch(lib, Escaped(k, ic), text, 0)
        == if f.Some? then Some((f.value, f.value + |k|)) else None
  {
    var t, kk := Fold(!ic, text), Fold(!ic, k);
    var f := Find(t, kk);
    if f.Some? {
      assert MatchEnd(lib, Escaped(k, ic), text, f.value).Some?;
    }
  }

  // ---------------------------------------------------------------------------
  // Engine construction

  /** `[k.strip() for k in keywords if k.strip()]`. */
  function CleanKeywords(ks: seq<string>): (r: seq<string>)
    ensures |r| <= |ks|
    ensures forall i :: 0 <= i < |r| ==> r[i] != [] && Strip(r[i]) == r[i]
  {
    if ks == [] then []
    else
      var k := Strip(ks[0]);
      StripIdempotent(ks[0]);
      (if k != [] then [k] else []) + CleanKeywords(ks[1..])
  }

  /** The cleaned list holds exactly the non-blank stripped inputs. */
  lemma CleanKeywordsMembers(ks: seq<string>, x: string)
    ensures x in CleanKeywords(ks) <==> x != [] && exists i :: 0 <= i < |ks| && Strip(ks[i]) == x
  {
    if x in CleanKeywords(ks) {
      var i := CleanKeywordOrigin(ks, x);
    }
    if x != [] && exists i :: 0 <= i < |ks| && Strip(ks[i]) == x {
      var i :| 0 <= i < |ks| && Strip(ks[i]) == x;
      CleanKeywordKept(ks, i);
    }
  }

  /** A non-blank input survives the cleaning, stripped. */
  lemma {:induction false} CleanKeywordKept(ks: seq<string>, i: int)
    requires 0 <= i < |ks| && Strip(ks[i]) != []
    ensures Strip(ks[i]) in CleanKeywords(ks)
    decreases |ks|
  {
    var k := Strip(ks[0]);
    assert CleanKeywords(ks) == (if k != [] then [k] else []) + CleanKeywords(ks[1..]);
    if i > 0 {
      assert ks[1..][i - 1] == ks[i];
      CleanKeywordKept(ks[1..], i - 1);
    }
  }

  /** Every cleaned keyword is the stripped form of some input. */
  lemma {:induction false} CleanKeywordOrigin(ks: seq<string>, x: string) returns (i: nat)
    requires x in CleanKeywords(ks)
    ensures i < |ks| && Strip(ks[i]) == x
    decreases |ks|
  {
    var k, tail := Strip(ks[0]), ks[1..];
    var head: seq<string> := if k != [] then [k] else [];
    assert CleanKeywords(ks) == head + CleanKeywords(tail);
    if x in head {
      return 0;
    }
    assert x in CleanKeywords(tail);
    var j := CleanKeywordOrigin(tail, x);
    i := j + 1;
  }

  /** No keyword is left exactly when every input is blank. */
  lemma CleanKeywordsEmpty(ks: seq<string>)
    ensures CleanKeywords(ks) == [] <==> forall i :: 0 <= i < |ks| ==> Strip(ks[i]) == []
  {
    var r := CleanKeywords(ks);
    if r != [] {
      CleanKeywordsMembers(ks, r[0]);
    }
    if exists i :: 0 <= i < |ks| && Strip(ks[i]) != [] {
      var i :| 0 <= i < |ks| && Strip(ks[i]) != [];
      CleanKeywordsMembers(ks, Strip(ks[i]));
    }
  }

  /** A search engine for text: the cleaned keywords (lower-cased in a
      case-insensitive literal search), and in regex mode one pattern per
      keyword. */
  datatype TextEngine = TextEngine(
    keywords: seq<string>,
    caseSensitive: bool,
    useRegex: bool,
    patterns: seq<Pattern>,
    lib: RegexLib)

  /** `_prepare_search_patterns` in regex mode: `re.compile(keyword, flags)`,
      or the escaped keyword when that raises `re.error`. */
  function PatternFor(lib: RegexLib, k: string, caseSensitive: bool): (p: Pattern)
    ensures p.Compiled? <==> lib.compiles(k)
  {
    if lib.compiles(k) then Compiled(k, !caseSensitive) else Escaped(k, !caseSensitive)
  }

  /** `TextSearchEngine(keywords, case_sensitive, use_regex)`: `Err` is the
      `ValueError` raised when no keyword is left after cleaning. */
  function NewTextEngine(keywords: seq<string>, caseSensitive: bool, useRegex: bool, lib: RegexLib)
    : (r: Result<TextEngine>)
    ensures r.Err? <==> forall i :: 0 <= i < |keywords| ==> Strip(keywords[i]) == []
    ensures r.Err? ==> r.error == "At least one keyword is required"
    ensures r.Ok? ==> var e := r.value;
      e.caseSensitive == caseSensitive && e.useRegex == useRegex
      && |e.keywords| == |CleanKeywords(keywords)| > 0
      && forall i :: 0 <= i < |e.keywords| ==>
           e.keywords[i] == (if useRegex || caseSensitive then CleanKeywords(keywords)[i]
                             else Lower(CleanKeywords(keywords)[i]))
    ensures r.Ok? && useRegex ==> var e := r.value;
      |e.patterns| == |e.keywords|
      && forall i :: 0 <= i < |e.patterns| ==>
           e.patterns[i].ignoreCase == !caseSensitive
           && (if lib.compiles(e.keywords[i]) then e.patterns[i] == Compiled(e.keywords[i], !caseSensitive)
               else e.patterns[i] == Escaped(e.keywords[i], !caseSensitive))
  {
    var ks := CleanKeywords(keywords);
    CleanKeywordsEmpty(keywords);
    if ks == [] then Err("At least one keyword is required")
    else if useRegex then
      Ok(TextEngine(ks, caseSensitive, true,
        seq(|ks|, i requires 0 <= i < |ks| => PatternFor(lib, ks[i], caseSensitive)), lib))
    else if caseSensitive then Ok(TextEngine(ks, true, false, [], lib))
    else Ok(TextEngine(seq(|ks|, i requires 0 <= i < |ks| => Lower(ks[i])), false, false, [], lib))
  }

  /** Every keyword of an engine is non-empty and stripped; a regex engine
      has one pattern per keyword. */
  predicate ValidEngine(e: TextEngine) {
    |e.keywords| > 0
    && (forall i :: 0 <= i < |e.keywords| ==> e.keywords[i] != [])
    && (e.useRegex ==> |e.patterns| == |e.keywords|)
  }

  /** Engines built by `NewTextEngine` are valid. */
  lemma NewTextEngineValid(keywords: seq<string>, caseSensitive: bool, useRegex: bool, lib: RegexLib)
    requires NewTextEngine(keywords, caseSensitive, useRegex, lib).Ok?
    ensures ValidEngine(NewTextEngine(keywords, caseSensitive, useRegex, lib).value)
  {
    var e := NewTextEngine(keywords, caseSensitive, useRegex, lib).value;
    var ks := CleanKeywords(keywords);
    forall i | 0 <= i < |e.keywords| ensures e.keywords[i] != [] {
      assert |e.keywords[i]| == |ks[i]|;
    }
  }

  // ---------------------------------------------------------------------------
  // Searching one chunk

  /** The words the literal search looks for (`search_keyword`). */
  function Keys(e: TextEngine): (ks: seq<string>)
    ensures |ks| == |e.keywords|
    ensures forall j :: 0 <= j < |ks| ==> |ks[j]| == |e.keywords[j]|
  {
    seq(|e.keywords|, j requires 0 <= j < |e.keywords| => Fold(e.caseSensitive, e.keywords[j]))
  }

  /** The first keyword, in list order, that occurs in `t`, with the index of
      its first occurrence. */
  function FirstHit(keys: seq<string>, t: string): (r: Option<(nat, nat)>)
    ensures r.Some? ==> r.value.0 < |keys| && Find(t, keys[r.value.0]) == Some(r.value.1)
    ensures r.Some? ==> forall j :: 0 <= j < r.value.0 ==> Find(t, keys[j]).None?
    ensures r.None? <==> forall j :: 0 <= j < |keys| ==> Find(t, keys[j]).None?
  {
    if keys == [] then None
    else match Find(t, keys[0])
      case Some(i) => Some((0, i))
      case None =>
        var rest := FirstHit(keys[1..], t);
        assert forall j :: 1 <= j < |keys| ==> keys[j] == keys[1..][j - 1];
        if rest.None? then None else Some((rest.value.0 + 1, rest.value.1))
  }

  /** The first pattern, in list order, that matches `text`, with the start
      and end of its leftmost match. */
  function FirstPatternHit(lib: RegexLib, ps: seq<Pattern>, text: string): (r: Option<(nat, nat, nat)>)
    ensures r.Some? ==> r.value.0 < |ps| && RegexSearch(lib, ps[r.value.0], text, 0) == Some((r.value.1, r.value.2))
    ensures r.Some? ==> forall j :: 0 <= j < r.value.0 ==> RegexSearch(lib, ps[j], text, 0).None?
    ensures r.None? <==> forall j :: 0 <= j < |ps| ==> RegexSearch(lib, ps[j], text, 0).None?
  {
    if ps == [] then None
    else match RegexSearch(lib, ps[0], text, 0)
      case Some(m) => Some((0, m.0, m.1))
      case None =>
        var rest := FirstPatternHit(lib, ps[1..], text);
        assert forall j :: 1 <= j < |ps| ==> ps[j] == ps[1..][j - 1];
        if rest.None? then None else Some((rest.value.0 + 1, rest.value.1, rest.value.2))
  }

  /** The context of a literal match at `i` of length `n`: up to
      `ContextRadius` characters on each side, then stripped. */
  function Context(text: string, i: nat, n: nat): (c: string)
    requires i + n <= |text|
    ensures |c| <= n + 2 * ContextRadius
  {
    var lo := if i >= ContextRadius then i - ContextRadius else 0;
    var hi := if i + n + ContextRadius <= |text| then i + n + ContextRadius else |text|;
    Strip(text[lo..hi])
  }

  /** `_search_in_chunk(chunk, date_dir, filename, line_number)`: the regex
      search in regex mode, the literal search otherwise. */
  function ChunkSearch(e: TextEngine, text: string, dateDir: string, filename: string, line: int)
    : (r: Option<SearchResult>)
    ensures r.Some? ==> r.value.dateDir == dateDir && r.value.filename == filename
    ensures r.Some? ==> r.value.lineNumber >= line
  {
    if e.useRegex then RegexChunk(e, text, dateDir, filename, line)
    else LiteralChunk(e, text, dateDir, filename, line)
  }

  /** The result of a regex match of `text[s..t]`: the matched text, on the
      line of the match's start. */
  function RegexHit(text: string, s: nat, t: nat, dateDir: string, filename: string, line: int): SearchResult
    requires s <= t <= |text|
  {
    SearchResult(dateDir, filename, RegexMatch, text[s..t], line + Count(text[..s], '\n'))
  }

  /** The result of a literal match of length `n` at index `i` of `text`,
      whose case-folded form is `st`: the context, on the line of the
      match. */
  function TextHit(text: string, st: string, i: nat, n: nat, dateDir: string, filename: string, line: int)
    : SearchResult
    requires i + n <= |text| == |st|
  {
    SearchResult(dateDir, filename, TextMatch, Context(text, i, n), line + Count(st[..i], '\n'))
  }

  /** Regex mode: the first pattern that matches gives a "Regex Match" whose
      content is the matched text, on the chunk's first line plus the
      newlines before the match. */
  function RegexChunk(e: TextEngine, text: string, dateDir: string, filename: string, line: int)
    : Option<SearchResult>
  {
    match FirstPatternHit(e.lib, e.patterns, text)
    case None => None
    case Some((_, s, t)) =>
      Some(RegexHit(text, s, t, dateDir, filename, line))
  }

  /** Literal mode: the first keyword that occurs in the case-folded chunk
      gives a "Text Match" whose content is the stripped context of its first
      occurrence, on the chunk's first line plus the newlines before it. */
  function LiteralChunk(e: TextEngine, text: string, dateDir: string, filename: string, line: int)
    : Option<SearchResult>
  {
    var st := Fold(e.caseSensitive, text);
    var keys := Keys(e);
    var hit := FirstHit(keys, st);
    if hit.None? then None
    else
      var (j, i) := hit.value;
      assert OccursAt(st, keys[j], i);
      Some(TextHit(text, st, i, |keys[j]|, dateDir, filename, line))
  }

  /** The literal search reports a match exactly when some keyword occurs in
      the case-folded chunk; the match is on a line of the chunk and its
      context is at most the keyword plus 50 characters on each side. */
  lemma LiteralChunkSpec(e: TextEngine, text: string, dateDir: string, filename: string, line: int)
    requires !e.useRegex
    ensures ChunkSearch(e, text, dateDir, filename, line).Some? <==> AnyKeywordIn(e, text)
    ensures var r := ChunkSearch(e, text, dateDir, filename, line);
      r.Some? ==> r.value.matchType == TextMatch && r.value.lineNumber <= line + Count(text, '\n')
    ensures var r := ChunkSearch(e, text, dateDir, filename, line);
      r.Some? ==> exists j :: 0 <= j < |e.keywords| && |r.value.matchContent| <= |Keys(e)[j]| + 2 * ContextRadius
  {
    var st := Fold(e.caseSensitive, text);
    var h := FirstHit(Keys(e), st);
    if h.Some? {
      var (j, i) := h.value;
      assert OccursAt(st, Keys(e)[j], i);
      assert Count(st[..i], '\n') == Count(text[..i], '\n') by {
        if !e.caseSensitive {
          LowerSlice(text, 0, i);
          LowerKeepsNewlines(text[..i]);
        }
      }
      CountPrefix(text, i);
    }
  }

  /** In regex mode the match is the leftmost match of the first pattern, in
      list order, that matches anywhere in the chunk. */
  lemma RegexChunkSpec(e: TextEngine, text: string, dateDir: string, filename: string, line: int)
    requires e.useRegex
    ensures var r := ChunkSearch(e, text, dateDir, filename, line);
      r.Some? <==> exists j :: 0 <= j < |e.patterns| && RegexSearch(e.lib, e.patterns[j], text, 0).Some?
    ensures var r := ChunkSearch(e, text, dateDir, filename, line);
      r.Some? ==> r.value.matchType == RegexMatch && r.value.lineNumber <= line + Count(text, '\n')
    ensures var r := ChunkSearch(e, text, dateDir, filename, line);
      r.Some? ==> exists j, s, t :: 0 <= j < |e.patterns| && RegexSearch(e.lib, e.patterns[j], text, 0) == Some((s, t))
                    && r.value.matchContent == text[s..t]
  {
    var h := FirstPatternHit(e.lib, e.patterns, text);
    if h.Some? {
      CountPrefix(text, h.value.1);
    }
  }

  /** A prefix has no more newlines than the whole. */
  lemma CountPrefix(s: string, i: nat)
    requires i <= |s|
    ensures Count(s[..i], '\n') <= Count(s, '\n')
  {
    assert s == s[..i] + s[i..];
    assert multiset(s) == multiset(s[..i]) + multiset(s[i..]);
  }

  /** Lower-casing keeps every newline where it is. */
  lemma {:induction false} LowerKeepsNewlines(s: string)
    ensures Count(Lower(s), '\n') == Count(s, '\n')
  {
    if s != [] {
      var n := |s| - 1;
      LowerKeepsNewlines(s[..n]);
      LowerSlice(s, 0, n);
      assert s == s[..n] + [s[n]];
      assert Lower(s) == Lower(s)[..n] + [Lower(s)[n]];
    }
  }

  /** `_search_in_chunk` as the source runs it: a loop over the patterns or
      the keywords that returns at the first hit. */
  method SearchInChunk(e: TextEngine, chunk: string, dateDir: string, filename: string, line: int)
    returns (r: Option<SearchResult>)
    ensures r == ChunkSearch(e, chunk, dateDir, filename, line)
  {
    if e.useRegex {
      r := SearchPatterns(e, chunk, dateDir, filename, line);
    } else {
      r := SearchKeywords(e, chunk, dateDir, filename, line);
    }
  }

  /** The regex branch of `_search_in_chunk`. */
  method SearchPatterns(e: TextEngine, chunk: string, dateDir: string, filename: string, line: int)
    returns (r: Option<SearchResult>)
    ensures r == RegexChunk(e, chunk, dateDir, filename, line)
  {
    var j := 0;
    while j < |e.patterns|
      invariant 0 <= j <= |e.patterns|
      invariant forall q :: 0 <= q < j ==> RegexSearch(e.lib, e.patterns[q], chunk, 0).None?
    {
      var m := RegexSearch(e.lib, e.patterns[j], chunk, 0);
      if m.Some? {
        var hit := FirstPatternHit(e.lib, e.patterns, chunk);
        assert hit.Some? && hit.value.0 == j;
        return Some(RegexHit(chunk, m.value.0, m.value.1, dateDir, filename, line));
      }
      j := j + 1;
    }
    return None;
  }

  /** The literal branch of `_search_in_chunk`. */
  method SearchKeywords(e: TextEngine, chunk: string, dateDir: string, filename: string, line: int)
    returns (r: Option<SearchResult>)
    ensures r == LiteralChunk(e, chunk, dateDir, filename, line)
  {
    var searchText := if e.caseSensitive then chunk else Lower(chunk);
    assert searchText == Fold(e.caseSensitive, chunk);
    ghost var keys := Keys(e);
    var j := 0;
    while j < |e.keywords|
      invariant 0 <= j <= |e.keywords|
      invariant forall q :: 0 <= q < j ==> Find(searchText, keys[q]).None?
    {
      var searchKeyword := if e.caseSensitive then e.keywords[j] else Lower(e.keywords[j]);
      assert searchKeyword == keys[j];
      var index := Find(searchText, searchKeyword);
      if index.Some? {
        ghost var hit := FirstHit(keys, searchText);
        assert hit.Some? && hit.value.0 <= j;
        ghost var h := hit.value.0;
        assert Find(searchText, keys[h]).Some?;
        assert h == j;
        assert hit == Some((j, index.value));
        assert OccursAt(searchText, searchKeyword, index.value);
        return Some(TextHit(chunk, searchText, index.value, |searchKeyword|, dateDir, filename, line));
      }
      j := j + 1;
    }
    assert FirstHit(keys, searchText).None?;
    return None;
  }

  // ---------------------------------------------------------------------------
  // Searching a stream in overlapping windows

  /** The bytes of a stream, in the order its chunks arrive. */
  function Concat(chunks: seq<string>): string {
    if chunks == [] then [] else chunks[0] + Concat(chunks[1..])
  }

  /** A window search: what is reported for a window of text whose first
      line is the given line number. */
  type WindowSearch = (string, int) -> Option<SearchResult>

  /** `_search_in_chunk` bound to the engine and to the file being searched,
      as the chunk callback of `search_in_stream` calls it. */
  function ChunkSearcher(e: TextEngine, dateDir: string, filename: string): WindowSearch {
    (w: string, l: int) => ChunkSearch(e, w, dateDir, filename, l)
  }

  /** What the stream search reports for the not yet searched text `s`, whose
      first line is `line`: while `s` fills a window, the window is searched
      and, without a hit, `overlap` characters before its end start the next
      one, with the line counter advanced by the whole window's newlines;
      a non-empty remainder shorter than a window is searched last. */
  function Scan(search: WindowSearch, s: string, line: int, chunkSize: nat, overlap: nat): Option<SearchResult>
    requires overlap < chunkSize
    decreases |s|
  {
    if |s| >= chunkSize then
      var window := s[..chunkSize];
      match search(window, line)
      case Some(hit) => Some(hit)
      case None => Scan(search, s[chunkSize - overlap..], line + Count(window, '\n'), chunkSize, overlap)
    else if s == [] then None
    else search(s, line)
  }

  /** Every result of the window search names the file and lies on or after
      the window's first line. */
  ghost predicate Stamped(search: WindowSearch, dateDir: string, filename: string) {
    forall w, l :: search(w, l).Some? ==>
      search(w, l).value.dateDir == dateDir && search(w, l).value.filename == filename
      && search(w, l).value.lineNumber >= l
  }

  lemma ChunkSearcherStamped(e: TextEngine, dateDir: string, filename: string)
    ensures Stamped(ChunkSearcher(e, dateDir, filename), dateDir, filename)
  {
  }

  /** Every result of the scan is a result of one of its windows, so it names
      the searched file and lies on or after the scan's first line. */
  lemma {:induction false} ScanStamped(search: WindowSearch, s: string, line: int, dateDir: string, filename: string,
                                       chunkSize: nat, overlap: nat)
    requires Stamped(search, dateDir, filename) && overlap < chunkSize
    ensures var r := Scan(search, s, line, chunkSize, overlap);
      r.Some? ==> r.value.dateDir == dateDir && r.value.filename == filename && r.value.lineNumber >= line
    decreases |s|
  {
    if |s| >= chunkSize {
      var window := s[..chunkSize];
      if search(window, line).None? {
        ScanStamped(search, s[chunkSize - overlap..], line + Count(window, '\n'), dateDir, filename, chunkSize, overlap);
      }
    }
  }

  /** The scan of `_search_in_chunk` reports results of the searched file. */
  lemma ScanStamps(e: TextEngine, s: string, line: int, dateDir: string, filename: string,
                   chunkSize: nat, overlap: nat)
    requires overlap < chunkSize
    ensures var r := Scan(ChunkSearcher(e, dateDir, filename), s, line, chunkSize, overlap);
      r.Some? ==> r.value.dateDir == dateDir && r.value.filename == filename && r.value.lineNumber >= line
  {
    ChunkSearcherStamped(e, dateDir, filename);
    ScanStamped(ChunkSearcher(e, dateDir, filename), s, line, dateDir, filename, chunkSize, overlap);
  }

  /** One window step of the scan, when the unsearched text starts with a
      buffer that fills a window, whatever follows the buffer. */
  lemma ScanStep(search: WindowSearch, buffer: string, rest: string, line: int, chunkSize: nat, overlap: nat)
    requires overlap < chunkSize <= |buffer|
    ensures var window := buffer[..chunkSize];
      var hit := search(window, line);
      Scan(search, buffer + rest, line, chunkSize, overlap)
        == if hit.Some? then hit
           else Scan(search, buffer[chunkSize - overlap..] + rest, line + Count(window, '\n'), chunkSize, overlap)
  {
    var whole := buffer + rest;
    assert whole[..chunkSize] == buffer[..chunkSize];
    assert whole[chunkSize - overlap..] == buffer[chunkSize - overlap..] + rest;
  }

  /** The result a stream search will give: the result already found, or
      else what scanning the buffer followed by the rest of the stream
      gives. */
  function StreamOutcome(search: WindowSearch, found: Option<SearchResult>, buffer: string, line: int,
                         rest: string, chunkSize: nat): Option<SearchResult>
    requires ChunkOverlapSize < chunkSize
  {
    if found.Some? then found
    else Scan(search, buffer + rest, line, chunkSize, ChunkOverlapSize)
  }

  /** The result kept after searching the window at the head of `buffer`:
      an earlier result stays, otherwise the window's. */
  function NextFound(search: WindowSearch, found: Option<SearchResult>, buffer: string, line: int, chunkSize: nat)
    : Option<SearchResult>
    requires chunkSize <= |buffer|
  {
    if found.None? then search(buffer[..chunkSize], line) else found
  }

  /** Searching the window at the head of the buffer and moving on keeps the
      eventual outcome: a result found there is the outcome unless one was
      found before. */
  lemma OutcomeStep(search: WindowSearch, found: Option<SearchResult>, buffer: string, line: int, rest: string,
                    chunkSize: nat)
    requires ChunkOverlapSize < chunkSize <= |buffer|
    ensures StreamOutcome(search, found, buffer, line, rest, chunkSize)
         == StreamOutcome(search, NextFound(search, found, buffer, line, chunkSize),
                          buffer[chunkSize - ChunkOverlapSize..], line + Count(buffer[..chunkSize], '\n'),
                          rest, chunkSize)
  {
    ScanStep(search, buffer, rest, line, chunkSize, ChunkOverlapSize);
  }

  /** The state `search_in_stream` keeps between calls of its chunk callback:
      the unsearched `buffer`, the `line_number` of its first line and the
      `found_result`.  `search` is the engine's `_search_in_chunk` for the
      file, which the callback closes over. */
  class StreamSearch {
    const search: WindowSearch
    const chunkSize: nat
    const earlyTermination: bool
    var buffer: string
    var lineNumber: int
    var found: Option<SearchResult>

    /** Between callbacks the buffer is shorter than a window unless a result
        was found and the search stopped early. */
    ghost predicate Valid()
      reads this
    {
      ChunkOverlapSize < chunkSize
      && ((found.None? || !earlyTermination) ==> |buffer| < chunkSize)
    }

    constructor (search: WindowSearch, chunkSize: nat, earlyTermination: bool)
      requires ChunkOverlapSize < chunkSize
      ensures Valid()
      ensures this.search == search && this.chunkSize == chunkSize && this.earlyTermination == earlyTermination
      ensures buffer == [] && lineNumber == 1 && found == None
    {
      this.search := search;
      this.chunkSize := chunkSize;
      this.earlyTermination := earlyTermination;
      buffer := [];
      lineNumber := 1;
      found := None;
    }

    /** `chunk_callback(data)`.  Whatever `rest` of the stream follows
        `data`, the eventual result is unchanged by the call; a result once
        found is never replaced, and after an early termination later
        chunks are ignored. */
    method OnChunk(data: string, ghost rest: string)
      requires Valid()
      modifies this
      ensures Valid()
      ensures StreamOutcome(search, found, buffer, lineNumber, rest, chunkSize)
           == StreamOutcome(search, old(found), old(buffer), old(lineNumber), data + rest, chunkSize)
      ensures old(found).Some? ==> found == old(found)
      ensures old(found).Some? && earlyTermination ==> buffer == old(buffer) && lineNumber == old(lineNumber)
    {
      if found.Some? && earlyTermination {
        return;
      }
      ghost var goal := StreamOutcome(search, found, buffer, lineNumber, data + rest, chunkSize);
      buffer := buffer + data;
      assert buffer + rest == old(buffer) + (data + rest);
      while |buffer| >= chunkSize && (found.None? || !earlyTermination)
        invariant old(found).Some? ==> found == old(found)
        invariant StreamOutcome(search, found, buffer, lineNumber, rest, chunkSize) == goal
        decreases |buffer|
      {
        OutcomeStep(search, found, buffer, lineNumber, rest, chunkSize);
        var stop := SearchWindow();
        if stop {
          break;
        }
      }
    }

    /** One pass of the callback's window loop: the window at the head of the
        buffer is searched, the buffer keeps the overlap onwards and the line
        counter moves past the window's newlines.  The first result found is
        kept; `stop` reports an early termination, which leaves the line
        counter alone. */
    method SearchWindow() returns (stop: bool)
      requires ChunkOverlapSize < chunkSize <= |buffer|
      modifies this
      ensures buffer == old(buffer)[chunkSize - ChunkOverlapSize..]
      ensures found == NextFound(search, old(found), old(buffer), old(lineNumber), chunkSize)
      ensures stop <==> old(found).None? && found.Some? && earlyTermination
      ensures !stop ==> lineNumber == old(lineNumber) + Count(old(buffer)[..chunkSize], '\n')
    {
      var chunk := buffer[..chunkSize];
      buffer := buffer[chunkSize - ChunkOverlapSize..];
      var result := search(chunk, lineNumber);
      stop := false;
      if result.Some? {
        if found.None? {
          found := result;
          if earlyTermination {
            return true;
          }
        }
      }
      lineNumber := lineNumber + Count(chunk, '\n');
    }
  }

  /** `TextSearchEngine.search_in_stream`: the chunks arrive in order; a
      transfer that fails raises inside the stream and the search gives
      `None`.  Otherwise the result is the scan of the whole stream from line
      1, whether or not the search terminates early. */
  method SearchInStream(e: TextEngine, chunks: seq<string>, transferFails: bool,
                        dateDir: string, filename: string, chunkSize: nat, earlyTermination: bool)
    returns (r: Option<SearchResult>)
    requires ChunkOverlapSize < chunkSize
    ensures r == if transferFails then None
                 else Scan(ChunkSearcher(e, dateDir, filename), Concat(chunks), 1, chunkSize, ChunkOverlapSize)
  {
    var search := ChunkSearcher(e, dateDir, filename);
    ghost var goal := Scan(search, Concat(chunks), 1, chunkSize, ChunkOverlapSize);
    var s := new StreamSearch(search, chunkSize, earlyTermination);
    assert chunks[0..] == chunks;
    assert [] + Concat(chunks) == Concat(chunks);
    var i := 0;
    while i < |chunks|
      invariant 0 <= i <= |chunks|
      invariant s.Valid()
      invariant s.search == search && s.chunkSize == chunkSize
      invariant StreamOutcome(search, s.found, s.buffer, s.lineNumber, Concat(chunks[i..]), chunkSize) == goal
    {
      ghost var rest := Concat(chunks[i + 1..]);
      assert chunks[i..][1..] == chunks[i + 1..];
      assert Concat(chunks[i..]) == chunks[i] + rest;
      s.OnChunk(chunks[i], rest);
      i := i + 1;
    }
    assert chunks[i..] == [];
    assert s.buffer + [] == s.buffer;
    if transferFails {
      return None;
    }
    if s.found.Some? {
      return s.found;
    }
    if s.buffer != [] {
      r := SearchInChunk(e, s.buffer, dateDir, filename, s.lineNumber);
      assert r == search(s.buffer, s.lineNumber);
      return;
    }
    return None;
  }

  // ---------------------------------------------------------------------------
  // What the windows cover

  /** An occurrence of `k` in `t` that is not inside the first window lies
      inside the text that the next window starts with, provided `k` is no
      longer than the overlap. */
  lemma OccurrenceAfterWindow(t: string, k: string, chunkSize: nat, overlap: nat)
    requires |k| <= overlap < chunkSize <= |t|
    requires Find(t[..chunkSize], k).None?
    ensures Find(t, k).Some? <==> Find(t[chunkSize - overlap..], k).Some?
  {
    var d := chunkSize - overlap;
    if Find(t, k).Some? {
      var p := Find(t, k).value;
      if p + |k| <= chunkSize {
        OccursInSlice(t, k, 0, chunkSize, p);
        assert false;
      }
      OccursInSlice(t, k, d, |t|, p - d);
    }
    assert t[d..|t|] == t[d..];
    if Find(t[d..], k).Some? {
      OccursInSlice(t, k, d, |t|, Find(t[d..], k).value);
    }
  }

  /** Folding commutes with taking a slice. */
  lemma FoldSlice(cs: bool, s: string, i: nat, j: nat)
    requires i <= j <= |s|
    ensures Fold(cs, s)[i..j] == Fold(cs, s[i..j])
  {
    if !cs {
      LowerSlice(s, i, j);
    }
  }

  /** Some keyword of `e` occurs in the case-folded `s`. */
  predicate AnyKeywordIn(e: TextEngine, s: string) {
    exists j :: 0 <= j < |e.keywords| && Find(Fold(e.caseSensitive, s), Keys(e)[j]).Some?
  }

  /** A window search that reports exactly the windows that have a property
      `has` (for the literal search: some keyword occurs in the window). */
  ghost predicate Reports(search: WindowSearch, has: string -> bool) {
    forall w, l :: search(w, l).Some? <==> has(w)
  }

  /** A property of texts that windows of `chunkSize` overlapping by
      `overlap` cannot miss: what the first window has the text has, and
      when the first window lacks it the text has it exactly when the text
      from the next window's start has it. */
  ghost predicate Local(has: string -> bool, chunkSize: nat, overlap: nat)
    requires overlap < chunkSize
  {
    !has([])
    && (forall s: string {:trigger s[..chunkSize]} :: chunkSize <= |s| && has(s[..chunkSize]) ==> has(s))
    && (forall s: string {:trigger s[..chunkSize]} :: chunkSize <= |s| && !has(s[..chunkSize]) ==>
          (has(s) <==> has(s[chunkSize - overlap..])))
  }

  /** The literal search of `_search_in_chunk` reports the windows in which
      some keyword occurs. */
  lemma LiteralSearchReportsKeywords(e: TextEngine, dateDir: string, filename: string)
    requires !e.useRegex
    ensures Reports(ChunkSearcher(e, dateDir, filename), w => AnyKeywordIn(e, w))
  {
    forall w, l ensures ChunkSearcher(e, dateDir, filename)(w, l).Some? <==> AnyKeywordIn(e, w) {
      LiteralChunkSpec(e, w, dateDir, filename, l);
    }
  }

  /** Boundary coverage of a scan whose window search reports a property no
      window boundary can hide: the scan finds something exactly when the
      whole text has the property. */
  lemma {:induction false} ScanCovers(search: WindowSearch, has: string -> bool, s: string, line: int,
                                      chunkSize: nat, overlap: nat)
    requires overlap < chunkSize && Reports(search, has) && Local(has, chunkSize, overlap)
    ensures Scan(search, s, line, chunkSize, overlap).Some? <==> has(s)
    decreases |s|
  {
    if |s| >= chunkSize {
      var window, rest := s[..chunkSize], s[chunkSize - overlap..];
      if search(window, line).None? {
        ScanCovers(search, has, rest, line + Count(window, '\n'), chunkSize, overlap);
        assert has(s) <==> has(rest);
      } else {
        assert has(s);
      }
    } else if s != [] {
      assert Scan(search, s, line, chunkSize, overlap) == search(s, line);
    }
  }

  /** Keyword occurrence is such a property when no keyword is longer than
      the overlap. */
  lemma KeywordsLocal(e: TextEngine, chunkSize: nat, overlap: nat)
    requires overlap < chunkSize
    requires forall j :: 0 <= j < |e.keywords| ==> 0 < |e.keywords[j]| <= overlap
    ensures Local(w => AnyKeywordIn(e, w), chunkSize, overlap)
  {
    NoKeywordInEmpty(e);
    forall s: string {:trigger s[..chunkSize]} | chunkSize <= |s| && AnyKeywordIn(e, s[..chunkSize]) ensures AnyKeywordIn(e, s) {
      CoverageInWindow(e, s, chunkSize);
    }
    forall s: string {:trigger s[..chunkSize]} | chunkSize <= |s| && !AnyKeywordIn(e, s[..chunkSize])
      ensures AnyKeywordIn(e, s) <==> AnyKeywordIn(e, s[chunkSize - overlap..])
    {
      CoverageAfterWindow(e, s, chunkSize, overlap);
    }
  }

  /** No keyword (each has at least one character) occurs in the empty text. */
  lemma NoKeywordInEmpty(e: TextEngine)
    requires forall j :: 0 <= j < |e.keywords| ==> 0 < |e.keywords[j]|
    ensures !AnyKeywordIn(e, [])
  {
    var t := Fold(e.caseSensitive, []);
    forall j | 0 <= j < |e.keywords| ensures Find(t, Keys(e)[j]).None? {
      assert forall q :: !OccursAt(t, Keys(e)[j], q);
    }
  }

  /** Boundary coverage.  In literal mode, when no keyword is longer than the
      overlap, the scan reports a result exactly when some keyword occurs in
      the (case-folded) stream. */
  lemma ScanCoverage(e: TextEngine, s: string, line: int, dateDir: string, filename: string,
                     chunkSize: nat, overlap: nat)
    requires !e.useRegex && overlap < chunkSize
    requires forall j :: 0 <= j < |e.keywords| ==> 0 < |e.keywords[j]| <= overlap
    ensures Scan(ChunkSearcher(e, dateDir, filename), s, line, chunkSize, overlap).Some? <==> AnyKeywordIn(e, s)
  {
    LiteralSearchReportsKeywords(e, dateDir, filename);
    KeywordsLocal(e, chunkSize, overlap);
    ScanCovers(ChunkSearcher(e, dateDir, filename), w => AnyKeywordIn(e, w), s, line, chunkSize, overlap);
  }

  /** A keyword in the first window is a keyword in the text. */
  lemma CoverageInWindow(e: TextEngine, s: string, chunkSize: nat)
    requires chunkSize <= |s|
    requires AnyKeywordIn(e, s[..chunkSize])
    ensures AnyKeywordIn(e, s)
  {
    var cs, keys := e.caseSensitive, Keys(e);
    var t := Fold(cs, s);
    FoldSlice(cs, s, 0, chunkSize);
    assert s[0..chunkSize] == s[..chunkSize] && t[0..chunkSize] == t[..chunkSize];
    var j :| 0 <= j < |keys| && Find(Fold(cs, s[..chunkSize]), keys[j]).Some?;
    OccursInSlice(t, keys[j], 0, chunkSize, Find(t[..chunkSize], keys[j]).value);
  }

  /** With no keyword in the first window, and no keyword longer than the
      overlap, a keyword occurs in the text exactly when it occurs in the
      text from the next window's start. */
  lemma CoverageAfterWindow(e: TextEngine, s: string, chunkSize: nat, overlap: nat)
    requires overlap < chunkSize <= |s|
    requires forall j :: 0 <= j < |e.keywords| ==> |e.keywords[j]| <= overlap
    requires !AnyKeywordIn(e, s[..chunkSize])
    ensures AnyKeywordIn(e, s) <==> AnyKeywordIn(e, s[chunkSize - overlap..])
  {
    forall j | 0 <= j < |e.keywords|
      ensures Find(Fold(e.caseSensitive, s), Keys(e)[j]).Some?
          <==> Find(Fold(e.caseSensitive, s[chunkSize - overlap..]), Keys(e)[j]).Some?
    {
      KeywordAfterWindow(e.caseSensitive, s, Keys(e)[j], chunkSize, overlap);
    }
  }

  /** One keyword of `CoverageAfterWindow`, on the case-folded text. */
  lemma KeywordAfterWindow(cs: bool, s: string, k: string, chunkSize: nat, overlap: nat)
    requires |k| <= overlap < chunkSize <= |s|
    requires Find(Fold(cs, s[..chunkSize]), k).None?
    ensures Find(Fold(cs, s), k).Some? <==> Find(Fold(cs, s[chunkSize - overlap..]), k).Some?
  {
    FoldEnds(cs, s, chunkSize, chunkSize - overlap);
    OccurrenceAfterWindow(Fold(cs, s), k, chunkSize, overlap);
  }

  /** Case-folding a prefix or a suffix folds that part of the text. */
  lemma FoldEnds(cs: bool, s: string, n: nat, d: nat)
    requires n <= |s| && d <= |s|
    ensures Fold(cs, s)[..n] == Fold(cs, s[..n]) && Fold(cs, s)[d..] == Fold(cs, s[d..])
  {
    var t := Fold(cs, s);
    FoldSlice(cs, s, 0, n);
    assert s[0..n] == s[..n] && t[0..n] == t[..n];
    FoldSlice(cs, s, d, |s|);
    assert s[d..|s|] == s[d..] && t[d..|s|] == t[d..];
  }

  /** With a keyword longer than the overlap an occurrence that straddles a
      window boundary is lost: with windows of 4 characters overlapping by 1,
      `cde` occurs in `abcdef` but is in neither `abcd` nor `def`. */
  lemma LongKeywordMissed(lib: RegexLib)
    ensures var e := TextEngine(["cde"], true, false, [], lib);
      Find("abcdef", "cde") == Some(2)
      && Scan(ChunkSearcher(e, "d", "f"), "abcdef", 1, 4, 1) == None
  {
    var e := TextEngine(["cde"], true, false, [], lib);
    var s: string := "abcdef";
    assert s[0..3] == "abc" && s[1..4] == "bcd" && s[2..5] == "cde";
    assert OccursAt(s, "cde", 2) && !OccursAt(s, "cde", 0) && !OccursAt(s, "cde", 1);
    LongKeywordWindowMisses(e, "abcd", 1);
    LongKeywordWindowMisses(e, "def", 1 + Count("abcd", '\n'));
    StraddlingScan(ChunkSearcher(e, "d", "f"));
  }

  /** Neither window of `abcdef` holds `cde`. */
  lemma LongKeywordWindowMisses(e: TextEngine, w: string, line: int)
    requires e.keywords == ["cde"] && e.caseSensitive && !e.useRegex && (w == "abcd" || w == "def")
    ensures ChunkSearch(e, w, "d", "f", line) == None
  {
    assert Keys(e)[0] == "cde";
    forall q ensures !OccursAt(w, "cde", q) {
      if 0 <= q && q + 3 <= |w| {
        assert w[q..q + 3] != "cde" by {
          assert w[q..q + 3][0] == w[q];
        }
      }
    }
    assert Fold(true, w) == w && Find(w, "cde").None?;
    assert !AnyKeywordIn(e, w);
    LiteralChunkSpec(e, w, "d", "f", line);
  }

  /** The scan of `abcdef` in windows of 4 overlapping by 1 searches `abcd`
      and then `def`. */
  lemma StraddlingScan(search: WindowSearch)
    requires search("abcd", 1) == None && search("def", 1 + Count("abcd", '\n')) == None
    ensures Scan(search, "abcdef", 1, 4, 1) == None
  {
    var s: string := "abcdef";
    assert s[..4] == "abcd" && s[3..] == "def";
  }

  /** The line counter advances by all the newlines of a searched window,
      although the next window starts again with the window's last
      `overlap` characters: with windows of 3 characters overlapping by 1,
      `k` in `ab\n\nk` is on line 3 but is reported on line 4. */
  lemma OverlapNewlinesCountedTwice(lib: RegexLib)
    ensures var e := TextEngine(["k"], true, false, [], lib);
      var s: string := "ab\n\nk";
      var r := Scan(ChunkSearcher(e, "d", "f"), s, 1, 3, 1);
      1 + Count(s[..4], '\n') == 3 && r.Some? && r.value.lineNumber == 4
  {
    var e := TextEngine(["k"], true, false, [], lib);
    var s: string := "ab\n\nk";
    assert s[..4] == "ab\n\n" && multiset(s[..4])['\n'] == 2;
    FirstWindowMisses(e, "ab\n");
    SecondWindowHits(e, "\n\nk");
    var search := ChunkSearcher(e, "d", "f");
    TwoWindowScan(search, ChunkSearch(e, "\n\nk", "d", "f", 2));
  }

  /** The scan of `ab\n\nk` in windows of 3 overlapping by 1 searches
      `ab\n` from line 1, then `\n\nk` from line 2. */
  lemma TwoWindowScan(search: WindowSearch, r: Option<SearchResult>)
    requires search("ab\n", 1) == None && search("\n\nk", 2) == r && r.Some?
    ensures Scan(search, "ab\n\nk", 1, 3, 1) == r
  {
    var s: string := "ab\n\nk";
    var w1: string := "ab\n";
    var w2: string := "\n\nk";
    assert s[..3] == w1 && s[2..] == w2;
    assert multiset(w1)['\n'] == 1;
    assert w2[..3] == w2;
    assert Scan(search, w2, 2, 3, 1) == r;
    assert Scan(search, s, 1, 3, 1) == Scan(search, w2, 1 + Count(w1, '\n'), 3, 1);
  }

  lemma FirstWindowMisses(e: TextEngine, w1: string)
    requires e.keywords == ["k"] && e.caseSensitive && !e.useRegex && w1 == "ab\n"
    ensures ChunkSearch(e, w1, "d", "f", 1) == None
  {
    assert Keys(e)[0] == "k";
    forall q ensures !OccursAt(w1, "k", q) {
      if 0 <= q && q + 1 <= 3 {
        assert w1[q..q + 1] == [w1[q]];
      }
    }
    assert Fold(true, w1) == w1 && Find(w1, "k").None?;
    assert !AnyKeywordIn(e, w1);
    LiteralChunkSpec(e, w1, "d", "f", 1);
  }

  lemma SecondWindowHits(e: TextEngine, w2: string)
    requires e.keywords == ["k"] && e.caseSensitive && !e.useRegex && w2 == "\n\nk"
    ensures var r := ChunkSearch(e, w2, "d", "f", 2); r.Some? && r.value.lineNumber == 4
  {
    assert Keys(e)[0] == "k";
    assert w2[2..3] == "k" && w2[0..1] == "\n" && w2[1..2] == "\n";
    assert OccursAt(w2, "k", 2) && !OccursAt(w2, "k", 0) && !OccursAt(w2, "k", 1);
    assert Find(w2, "k") == Some(2);
    assert FirstHit(Keys(e), w2) == Some((0, 2));
    assert w2[..2] == "\n\n" && multiset(w2[..2])['\n'] == 2;
  }

}
