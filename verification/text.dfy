/** The Python `str` operations the search pipeline relies on.  Text is a
    sequence of characters; a byte of a file is the character with the same
    code, which is what UTF-8 decoding gives for ASCII content. */
module Text {
  import opened Wrappers

  /** `str.isspace()`: the characters `str.split()` and `str.strip()` treat as
      whitespace. */
  predicate IsSpace(c: char) {
    var n := c as int;
    n == 0x20 || 0x09 <= n <= 0x0d || 0x1c <= n <= 0x1f || n == 0x85 || n == 0xa0
    || n == 0x1680 || 0x2000 <= n <= 0x200a || n == 0x2028 || n == 0x2029
    || n == 0x202f || n == 0x205f || n == 0x3000
  }

  predicate NoSpace(s: string) {
    forall i :: 0 <= i < |s| ==> !IsSpace(s[i])
  }

  // ---------------------------------------------------------------------------
  // str.split()

  /** Length of the run of non-whitespace characters that starts `s`. */
  function WordLength(s: string): (n: nat)
    ensures n <= |s|
    ensures NoSpace(s[..n])
    ensures n == |s| || IsSpace(s[n])
  {
    if s == [] || IsSpace(s[0]) then 0
    else
      var n := 1 + WordLength(s[1..]);
      assert s[..n] == [s[0]] + s[1..][..n - 1];
      n
  }

  /** `s.split()`: the maximal runs of non-whitespace characters, in order. */
  function Split(s: string): (r: seq<string>)
    ensures forall i :: 0 <= i < |r| ==> |r[i]| > 0 && NoSpace(r[i])
    ensures r == [] <==> forall k :: 0 <= k < |s| ==> IsSpace(s[k])
    decreases |s|
  {
    if s == [] then []
    else if IsSpace(s[0]) then
      assert forall k :: 1 <= k < |s| ==> s[k] == s[1..][k - 1];
      Split(s[1..])
    else
      var n := WordLength(s);
      [s[..n]] + Split(s[n..])
  }

  /** Tokens written out with one space between consecutive ones. */
  function JoinSpaced(ts: seq<string>): string {
    if ts == [] then ""
    else if |ts| == 1 then ts[0]
    else ts[0] + " " + JoinSpaced(ts[1..])
  }

  lemma SplitWord(w: string, rest: string)
    requires |w| > 0 && NoSpace(w)
    requires rest == [] || IsSpace(rest[0])
    ensures Split(w + rest) == [w] + Split(rest)
  {
    var s := w + rest;
    assert s[..|w|] == w;
    WordLengthOf(w, rest);
    assert s[|w|..] == rest;
  }

  lemma {:induction false} WordLengthOf(w: string, rest: string)
    requires NoSpace(w)
    requires rest == [] || IsSpace(rest[0])
    ensures WordLength(w + rest) == |w|
  {
    if w != [] {
      assert (w + rest)[1..] == w[1..] + rest;
      WordLengthOf(w[1..], rest);
    }
  }

  /** `split()` undoes joining tokens with single spaces: a listing line built
      from whitespace-free tokens splits back into exactly those tokens. */
  lemma {:induction false} SplitJoinSpaced(ts: seq<string>)
    requires forall i :: 0 <= i < |ts| ==> |ts[i]| > 0 && NoSpace(ts[i])
    ensures Split(JoinSpaced(ts)) == ts
  {
    if ts == [] {
    } else if |ts| == 1 {
      SplitWord(ts[0], "");
      assert ts[0] + "" == ts[0];
    } else {
      var rest := JoinSpaced(ts[1..]);
      assert ts[0] + " " + rest == ts[0] + (" " + rest);
      SplitWord(ts[0], " " + rest);
      assert (" " + rest)[1..] == rest;
      SplitJoinSpaced(ts[1..]);
    }
  }

  /** Tokens laid out between separators: `seps[0] ts[0] seps[1] ... ts[n-1]
      seps[n]`.  A `LIST` line pads its columns with runs of spaces. */
  function Interleave(ts: seq<string>, seps: seq<string>): string
    requires |seps| == |ts| + 1
  {
    if ts == [] then seps[0] else seps[0] + ts[0] + Interleave(ts[1..], seps[1..])
  }

  /** Whitespace separators: the ones between two tokens are non-empty, the
      leading and trailing ones may be empty. */
  predicate Separators(seps: seq<string>) {
    (forall i :: 0 <= i < |seps| ==> forall k :: 0 <= k < |seps[i]| ==> IsSpace(seps[i][k]))
    && forall i :: 0 < i < |seps| - 1 ==> |seps[i]| > 0
  }

  /** Tokens of a line: non-empty runs without whitespace. */
  predicate Words(ts: seq<string>) {
    forall i :: 0 <= i < |ts| ==> |ts[i]| > 0 && NoSpace(ts[i])
  }

  /** Leading whitespace does not change the split. */
  lemma {:induction false} SplitSpaces(sp: string, rest: string)
    requires forall k :: 0 <= k < |sp| ==> IsSpace(sp[k])
    ensures Split(sp + rest) == Split(rest)
    decreases |sp|
  {
    if sp != [] {
      var t := sp + rest;
      assert t[0] == sp[0] && t[1..] == sp[1..] + rest;
      assert Split(t) == Split(t[1..]);
      SplitSpaces(sp[1..], rest);
    } else {
      assert sp + rest == rest;
    }
  }

  /** `split()` gives back the tokens of a line whatever whitespace runs
      separate them, and whatever whitespace leads or trails. */
  lemma {:induction false} SplitInterleave(ts: seq<string>, seps: seq<string>)
    requires |seps| == |ts| + 1 && Words(ts) && Separators(seps)
    ensures Split(Interleave(ts, seps)) == ts
  {
    if ts == [] {
      SplitSpaces(seps[0], "");
      assert seps[0] + "" == seps[0];
    } else {
      var rest := Interleave(ts[1..], seps[1..]);
      assert Separators(seps[1..]) by {
        forall i | 0 < i < |seps[1..]| - 1 ensures |seps[1..][i]| > 0 {
          assert seps[1..][i] == seps[i + 1];
        }
      }
      assert rest == [] || IsSpace(rest[0]) by {
        if |ts| > 1 {
          assert |seps[1]| > 0;
          assert rest == seps[1] + (ts[1] + Interleave(ts[2..], seps[2..])) by {
            assert ts[1..][1..] == ts[2..] && seps[1..][1..] == seps[2..];
          }
        } else {
          assert rest == seps[1];
        }
      }
      assert Interleave(ts, seps) == seps[0] + (ts[0] + rest);
      SplitSpaces(seps[0], ts[0] + rest);
      SplitWord(ts[0], rest);
      SplitInterleave(ts[1..], seps[1..]);
    }
  }

  // ---------------------------------------------------------------------------
  // str.strip()

  /** `s.rstrip()`. */
  function StripRight(s: string): (r: string)
    ensures |r| <= |s| && r == s[..|r|]
    ensures r == [] || !IsSpace(r[|r| - 1])
    ensures forall k :: |r| <= k < |s| ==> IsSpace(s[k])
  {
    if s != [] && IsSpace(s[|s| - 1]) then StripRight(s[..|s| - 1]) else s
  }

  /** `s.strip()`: `s` without its leading and trailing whitespace.  Leading
      whitespace is dropped one character at a time, then the rest is
      right-stripped. */
  function Strip(s: string): (r: string)
    ensures |r| <= |s|
    ensures r == [] || (!IsSpace(r[0]) && !IsSpace(r[|r| - 1]))
  {
    if s != [] && IsSpace(s[0]) then Strip(s[1..])
    else
      var r := StripRight(s);
      assert r != [] ==> r[0] == s[0];
      r
  }

  /** `strip` removes exactly the leading and the trailing whitespace: the
      result is the slice of `s` starting at `i`, and every character
      before or after that slice is whitespace. */
  lemma {:induction false} StripSlice(s: string) returns (i: nat)
    ensures i + |Strip(s)| <= |s| && Strip(s) == s[i..i + |Strip(s)|]
    ensures forall k :: 0 <= k < i ==> IsSpace(s[k])
    ensures forall k :: i + |Strip(s)| <= k < |s| ==> IsSpace(s[k])
    decreases |s|
  {
    if s != [] && IsSpace(s[0]) {
      var j := StripSlice(s[1..]);
      i := j + 1;
    } else {
      i := 0;
    }
  }

  /** Stripping a stripped string changes nothing. */
  lemma StripIdempotent(s: string)
    ensures Strip(Strip(s)) == Strip(s)
  {
    var r := Strip(s);
    assert StripRight(r) == r;
  }

  // ---------------------------------------------------------------------------
  // str.lower(), prefixes and suffixes

  /** `lower()` on one character; only ASCII letters are modelled. */
  function LowerChar(c: char): char {
    if 'A' <= c <= 'Z' then (c as int + 32) as char else c
  }

  function Lower(s: string): (r: string)
    ensures |r| == |s|
  {
    seq(|s|, i requires 0 <= i < |s| => LowerChar(s[i]))
  }

  /** Lower-casing commutes with taking a slice. */
  lemma LowerSlice(s: string, i: nat, j: nat)
    requires i <= j <= |s|
    ensures Lower(s)[i..j] == Lower(s[i..j])
  {
  }

  /** Lower-casing twice is lower-casing once. */
  lemma LowerIdempotent(s: string)
    ensures Lower(Lower(s)) == Lower(s)
  {
  }

  predicate StartsWith(s: string, p: string) {
    |p| <= |s| && s[..|p|] == p
  }

  predicate EndsWith(s: string, p: string) {
    |p| <= |s| && s[|s| - |p|..] == p
  }

  // ---------------------------------------------------------------------------
  // Substring search: `k in t` and `t.find(k)`

  /** `k` occurs in `t` at index `p`. */
  predicate OccursAt(t: string, k: string, p: int) {
    0 <= p && p + |k| <= |t| && t[p..p + |k|] == k
  }

  function FindFrom(t: string, k: string, from: nat): (r: Option<nat>)
    requires from <= |t| + 1
    ensures r.Some? ==> from <= r.value && OccursAt(t, k, r.value)
    ensures forall q :: from <= q && (r.None? || q < r.value) ==> !OccursAt(t, k, q)
    decreases |t| + 1 - from
  {
    if from + |k| > |t| then None
    else if t[from..from + |k|] == k then Some(from)
    else FindFrom(t, k, from + 1)
  }

  /** `t.find(k)`: the first index at which `k` occurs in `t`, or `None` where
      Python gives -1.  `k in t` is `Find(t, k).Some?`. */
  function Find(t: string, k: string): (r: Option<nat>)
    ensures r.Some? ==> OccursAt(t, k, r.value)
    ensures r.Some? ==> forall q :: 0 <= q < r.value ==> !OccursAt(t, k, q)
    ensures r.None? <==> forall q :: !OccursAt(t, k, q)
  {
    FindFrom(t, k, 0)
  }

  /** An occurrence inside a slice is an occurrence in the whole text, shifted
      by the slice's start. */
  lemma OccursInSlice(t: string, k: string, i: nat, j: nat, p: int)
    requires i <= j <= |t|
    ensures OccursAt(t[i..j], k, p) <==> (OccursAt(t, k, p + i) && p + i + |k| <= j && 0 <= p)
  {
    if 0 <= p && p + |k| <= j - i {
      var a, b := t[i..j][p..p + |k|], t[p + i..p + i + |k|];
      assert forall m :: 0 <= m < |k| ==> a[m] == b[m];
      assert a == b;
    }
  }

  /** Number of times `c` occurs in `s` (`s.count(c)` for a one-character
      argument). */
  function Count(s: string, c: char): nat {
    multiset(s)[c]
  }

  // ---------------------------------------------------------------------------
  // Digit strings: `str.isdigit()`, `int()`, and decimal rendering

  predicate IsDigit(c: char) { '0' <= c <= '9' }

  /** `s.isdigit()` for ASCII digits (false for the empty string). */
  predicate IsDigits(s: string) {
    |s| > 0 && forall i :: 0 <= i < |s| ==> IsDigit(s[i])
  }

  function DigitValue(c: char): nat
    requires IsDigit(c)
  {
    c as int - '0' as int
  }

  function Digit(n: nat): (c: char)
    requires n < 10
    ensures IsDigit(c) && DigitValue(c) == n
  {
    ('0' as int + n) as char
  }

  /** The number a string of decimal digits denotes. */
  function DigitsValue(s: string): nat
    requires forall i :: 0 <= i < |s| ==> IsDigit(s[i])
  {
    if s == [] then 0 else DigitsValue(s[..|s| - 1]) * 10 + DigitValue(s[|s| - 1])
  }

  /** `int(s)` restricted to digit strings: `None` where Python raises
      `ValueError`. */
  function ParseNat(s: string): (r: Option<nat>)
    ensures r.Some? <==> IsDigits(s)
  {
    if IsDigits(s) then Some(DigitsValue(s)) else None
  }

  /** `str(n)` for a natural number: its decimal digits, without padding. */
  function Decimal(n: nat): (s: string)
    ensures IsDigits(s)
  {
    if n < 10 then [Digit(n)] else Decimal(n / 10) + [Digit(n % 10)]
  }

  /** Reading back the decimal rendering of `n` gives `n`. */
  lemma {:induction false} DecimalRoundTrip(n: nat)
    ensures DigitsValue(Decimal(n)) == n
  {
    if n >= 10 {
      var s := Decimal(n);
      assert s[..|s| - 1] == Decimal(n / 10);
      DecimalRoundTrip(n / 10);
    }
  }

  /** Numbers from 1000 to 9999 are rendered with exactly four digits. */
  lemma DecimalLength4(n: nat)
    requires 1000 <= n <= 9999
    ensures |Decimal(n)| == 4
  {
    assert |Decimal(n / 1000)| == 1;
    assert |Decimal(n / 100)| == 2;
    assert |Decimal(n / 10)| == 3;
  }

  lemma {:induction false} DigitsValuePositive(s: string)
    requires IsDigits(s) && s[0] != '0'
    ensures DigitsValue(s) >= 1
  {
    if |s| > 1 {
      DigitsValuePositive(s[..|s| - 1]);
    }
  }

  lemma ShiftDigit(a: nat, d: nat)
    requires d < 10
    ensures (a * 10 + d) / 10 == a && (a * 10 + d) % 10 == d
  {
  }

  /** A digit string without a leading zero is the rendering of its value. */
  lemma {:induction false} DecimalOfDigits(s: string)
    requires IsDigits(s) && s[0] != '0'
    ensures Decimal(DigitsValue(s)) == s
  {
    if |s| > 1 {
      var p := s[..|s| - 1];
      var c := s[|s| - 1];
      DigitsValuePositive(p);
      DecimalOfDigits(p);
      var n := DigitsValue(s);
      assert n == DigitsValue(p) * 10 + DigitValue(c);
      ShiftDigit(DigitsValue(p), DigitValue(c));
      assert n >= 10;
      assert Decimal(n) == Decimal(DigitsValue(p)) + [Digit(DigitValue(c))];
      assert Digit(DigitValue(c)) == c;
      assert s == p + [c];
    } else {
      assert Digit(DigitValue(s[0])) == s[0];
    }
  }

  // ---------------------------------------------------------------------------
  // fnmatch

  /** `fnmatch.fnmatchcase(name, pat)` for patterns built from literal
      characters, `*` (any run) and `?` (any one character). */
  function Glob(name: string, pat: string): bool
    decreases |name| + |pat|
  {
    if pat == [] then name == []
    else if pat[0] == '*' then Glob(name, pat[1..]) || (name != [] && Glob(name[1..], pat))
    else if pat[0] == '?' then name != [] && Glob(name[1..], pat[1..])
    else name != [] && name[0] == pat[0] && Glob(name[1..], pat[1..])
  }

  predicate NoWildcard(pat: string) {
    forall i :: 0 <= i < |pat| ==> pat[i] != '*' && pat[i] != '?'
  }

  /** A pattern without wildcards matches exactly itself. */
  lemma {:induction false} GlobLiteral(name: string, pat: string)
    requires NoWildcard(pat)
    ensures Glob(name, pat) <==> name == pat
  {
    if pat != [] && name != [] {
      GlobLiteral(name[1..], pat[1..]);
      if name[0] == pat[0] && name[1..] == pat[1..] {
        assert name == [name[0]] + name[1..];
        assert pat == [pat[0]] + pat[1..];
      }
    }
  }

  /** A pattern that is a `*` followed by a suffix without wildcards matches
      exactly the names that end with that suffix. */
  lemma {:induction false} GlobStarSuffix(name: string, suffix: string)
    requires NoWildcard(suffix)
    ensures Glob(name, "*" + suffix) <==> EndsWith(name, suffix)
    decreases |name|
  {
    var pat := "*" + suffix;
    assert pat[1..] == suffix;
    GlobLiteral(name, suffix);
    if name != [] {
      GlobStarSuffix(name[1..], suffix);
      if |suffix| <= |name[1..]| {
        assert name[1..][|name[1..]| - |suffix|..] == name[|name| - |suffix|..];
      }
    }
    if EndsWith(name, suffix) && name != suffix {
      assert |suffix| < |name|;
      assert name[1..][|name[1..]| - |suffix|..] == name[|name| - |suffix|..];
    }
    if name == [] && EndsWith(name, suffix) {
      assert suffix == [];
    }
  }

  // ---------------------------------------------------------------------------
  // Python's ordering of strings and `sorted()`

  /** `a <= b` for Python strings: lexicographic on code points. */
  predicate LexLe(a: string, b: string) {
    a == [] || (b != [] && (a[0] < b[0] || (a[0] == b[0] && LexLe(a[1..], b[1..]))))
  }

  lemma {:induction false} LexLeTotal(a: string, b: string)
    ensures LexLe(a, b) || LexLe(b, a)
  {
    if a != [] && b != [] && a[0] == b[0] {
      LexLeTotal(a[1..], b[1..]);
    }
  }

  lemma {:induction false} LexLeTransitive(a: string, b: string, c: string)
    requires LexLe(a, b) && LexLe(b, c)
    ensures LexLe(a, c)
  {
    if a != [] && b != [] && c != [] && a[0] == b[0] == c[0] {
      LexLeTransitive(a[1..], b[1..], c[1..]);
    }
  }

  predicate SortedStrings(s: seq<string>) {
    forall i, j :: 0 <= i < j < |s| ==> LexLe(s[i], s[j])
  }

  function Insert(x: string, s: seq<string>): (r: seq<string>)
    ensures multiset(r) == multiset(s) + multiset{x}
  {
    if s == [] then [x]
    else if LexLe(x, s[0]) then [x] + s
    else
      assert s == [s[0]] + s[1..];
      [s[0]] + Insert(x, s[1..])
  }

  /** A lower bound of `x` and of every element of `s` bounds the insertion. */
  lemma InsertBound(b: string, x: string, s: seq<string>)
    requires LexLe(b, x) && forall i :: 0 <= i < |s| ==> LexLe(b, s[i])
    ensures forall i :: 0 <= i < |Insert(x, s)| ==> LexLe(b, Insert(x, s)[i])
  {
    var r := Insert(x, s);
    forall i | 0 <= i < |r| ensures LexLe(b, r[i]) {
      var y := r[i];
      assert y in multiset(r);
      if y != x {
        assert y in multiset(s);
        var k :| 0 <= k < |s| && s[k] == y;
      }
    }
  }

  lemma {:induction false} InsertSorted(x: string, s: seq<string>)
    requires SortedStrings(s)
    ensures SortedStrings(Insert(x, s))
  {
    if s == [] {
    } else if LexLe(x, s[0]) {
      forall j | 0 <= j < |s| ensures LexLe(x, s[j]) {
        if j > 0 { LexLeTransitive(x, s[0], s[j]); }
      }
    } else {
      var rest := s[1..];
      var tail := Insert(x, rest);
      InsertSorted(x, rest);
      LexLeTotal(x, s[0]);
      assert forall i :: 0 <= i < |rest| ==> LexLe(s[0], rest[i]) by {
        forall i | 0 <= i < |rest| ensures LexLe(s[0], rest[i]) {
          assert rest[i] == s[i + 1];
        }
      }
      InsertBound(s[0], x, rest);
      var r := [s[0]] + tail;
      assert Insert(x, s) == r;
      forall i, j | 0 <= i < j < |r| ensures LexLe(r[i], r[j]) {
        assert r[j] == tail[j - 1];
        if i > 0 { assert r[i] == tail[i - 1]; }
      }
    }
  }

  /** `sorted(s)` for a list of strings: an ascending permutation of `s`. */
  function Sort(s: seq<string>): (r: seq<string>)
    ensures SortedStrings(r)
    ensures multiset(r) == multiset(s)
  {
    if s == [] then []
    else
      assert s == [s[0]] + s[1..];
      var t := Sort(s[1..]);
      InsertSorted(s[0], t);
      Insert(s[0], t)
  }
}
