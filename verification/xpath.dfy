/** The structural search engine of `src/core/search_engine.py`
    (`XPathSearchEngine`): a small evaluator for three forms of the
    abbreviated XPath syntax (`//tag`, `/a/b`, a bare relative path) over an
    element tree, and the streamed search that evaluates every expression at
    each element's end event, after which the element is cleared.

    Paths are evaluated as ElementTree's `find` evaluates them.  Steps are
    plain tag names; a step of any other form (`*`, `.`, predicates) is not
    part of this model and evaluates to false. */
module XPath {
  import opened Wrappers
  import opened Text
  import SearchEngine

  /** An XML element: its tag and its child elements, in document order.
      Attributes and text play no part in the evaluator. */
  datatype Element = Element(tag: string, children: seq<Element>)

  const XPathMatch := "XPath Match"

  predicate IsNameChar(c: char) {
    'a' <= c <= 'z' || 'A' <= c <= 'Z' || '0' <= c <= '9' || c == '_' || c == '-'
  }

  /** A plain tag name, the only step form the model evaluates. */
  predicate PlainName(s: string) {
    |s| > 0 && forall i :: 0 <= i < |s| ==> IsNameChar(s[i])
  }

  predicate PlainPath(steps: seq<string>) {
    |steps| > 0 && forall i :: 0 <= i < |steps| ==> PlainName(steps[i])
  }

  // ---------------------------------------------------------------------------
  // `str.split('/')`

  function SplitSlash(s: string): (parts: seq<string>)
    ensures |parts| >= 1
    ensures forall i :: 0 <= i < |parts| ==> '/' !in parts[i]
  {
    if s == [] then [""]
    else
      var rest := SplitSlash(s[1..]);
      if s[0] == '/' then [""] + rest
      else [[s[0]] + rest[0]] + rest[1..]
  }

  function JoinSlash(parts: seq<string>): string
    requires |parts| >= 1
  {
    if |parts| == 1 then parts[0] else parts[0] + "/" + JoinSlash(parts[1..])
  }

  /** Splitting loses nothing: joining the parts with `/` gives the text back. */
  lemma {:induction false} SplitJoin(s: string)
    ensures JoinSlash(SplitSlash(s)) == s
  {
    if s != [] {
      SplitJoin(s[1..]);
      var rest := SplitSlash(s[1..]);
      if s[0] != '/' {
        if |rest| == 1 {
          assert SplitSlash(s) == [[s[0]] + rest[0]];
        } else {
          assert SplitSlash(s)[1..] == rest[1..];
        }
      } else {
        assert SplitSlash(s)[1..] == rest;
      }
    }
  }

  /** A text without `/` is its own single part. */
  lemma {:induction false} SplitNoSlash(s: string)
    requires '/' !in s
    ensures SplitSlash(s) == [s]
  {
    if s != [] {
      assert '/' !in s[1..] by {
        forall i | 0 <= i < |s[1..]| ensures s[1..][i] != '/' {
          assert s[1..][i] == s[i + 1];
        }
      }
      SplitNoSlash(s[1..]);
      assert [s[0]] + s[1..] == s;
    }
  }

  // ---------------------------------------------------------------------------
  // ElementTree path semantics on plain steps

  /** `el.find("s1/s2/.../sn") is not None`: there is a chain of children,
      starting at a child of `el`, whose tags are the steps in order. */
  predicate ChildPath(el: Element, steps: seq<string>)
    decreases el
  {
    steps == []
    || exists i :: 0 <= i < |el.children| && el.children[i].tag == steps[0]
                   && ChildPath(el.children[i], steps[1..])
  }

  /** `el.find(".//s1/s2/.../sn") is not None`: some proper descendant has
      tag `s1` and starts a chain of children for the remaining steps. */
  predicate DescPath(el: Element, steps: seq<string>)
    requires steps != []
    decreases el
  {
    exists i :: 0 <= i < |el.children|
      && ((el.children[i].tag == steps[0] && ChildPath(el.children[i], steps[1..]))
          || DescPath(el.children[i], steps))
  }

  /** `el.find(tag)` for a plain tag: the first child with that tag. */
  function FirstWithTag(cs: seq<Element>, tag: string): (r: Option<nat>)
    ensures r.Some? ==> r.value < |cs| && cs[r.value].tag == tag
                        && forall j :: 0 <= j < r.value ==> cs[j].tag != tag
    ensures r.None? ==> forall j :: 0 <= j < |cs| ==> cs[j].tag != tag
  {
    if cs == [] then None
    else if cs[0].tag == tag then Some(0)
    else match FirstWithTag(cs[1..], tag)
      case None => None
      case Some(k) => Some(k + 1)
  }

  /** The absolute form: `current = current.find(part)` for every part, with
      no backtracking.  An empty part (as in `/a//b`) finds nothing. */
  function Walk(el: Element, parts: seq<string>): Option<Element>
    decreases |parts|
  {
    if parts == [] then Some(el)
    else if !PlainName(parts[0]) then None
    else match FirstWithTag(el.children, parts[0])
      case None => None
      case Some(k) => Walk(el.children[k], parts[1..])
  }

  /** `_evaluate_xpath(element, expr)`. */
  predicate Matches(el: Element, expr: string) {
    if StartsWith(expr, "//") then
      var steps := SplitSlash(expr[2..]);
      PlainPath(steps) && DescPath(el, steps)
    else if StartsWith(expr, "/") then
      Walk(el, SplitSlash(expr[1..])).Some?
    else
      var steps := SplitSlash(expr);
      PlainPath(steps) && ChildPath(el, steps)
  }

  /** `_evaluate_xpath`, with its step-by-step walk for the absolute form. */
  method EvaluateXPath(el: Element, expr: string) returns (b: bool)
    ensures b == Matches(el, expr)
  {
    if StartsWith(expr, "//") {
      var steps := SplitSlash(expr[2..]);
      return PlainPath(steps) && DescPath(el, steps);
    } else if StartsWith(expr, "/") {
      var parts := SplitSlash(expr[1..]);
      var current := el;
      var i := 0;
      while i < |parts|
        invariant 0 <= i <= |parts|
        invariant Walk(el, parts) == Walk(current, parts[i..])
      {
        assert parts[i..][1..] == parts[i + 1..];
        if !PlainName(parts[i]) {
          return false;
        }
        var k := FirstWithTag(current.children, parts[i]);
        if k.None? {
          return false;
        }
        current := current.children[k.value];
        i := i + 1;
      }
      return true;
    } else {
      var steps := SplitSlash(expr);
      return PlainPath(steps) && ChildPath(el, steps);
    }
  }

  // ---------------------------------------------------------------------------
  // Properties of the three forms

  /** The tags of the proper descendants of an element. */
  function TagsBelow(el: Element): set<string>
    decreases el, 1
  {
    ChildTags(el) + DeepTags(el, 0)
  }

  function ChildTags(el: Element): set<string> {
    set i | 0 <= i < |el.children| :: el.children[i].tag
  }

  function DeepTags(el: Element, i: nat): set<string>
    requires i <= |el.children|
    decreases el, 0, |el.children| - i
  {
    if i == |el.children| then {} else TagsBelow(el.children[i]) + DeepTags(el, i + 1)
  }

  lemma {:induction false} DeepTagsMember(el: Element, i: nat, t: string)
    requires i <= |el.children|
    ensures t in DeepTags(el, i) <==> exists j :: i <= j < |el.children| && t in TagsBelow(el.children[j])
    decreases |el.children| - i
  {
    if i < |el.children| {
      DeepTagsMember(el, i + 1, t);
    }
  }

  /** A tag lies below an element iff some child has it or it lies below
      some child. */
  lemma TagsBelowMember(el: Element, t: string)
    ensures t in TagsBelow(el) <==>
      exists i :: 0 <= i < |el.children| && (el.children[i].tag == t || t in TagsBelow(el.children[i]))
  {
    DeepTagsMember(el, 0, t);
  }

  /** `//t` holds iff some proper descendant has tag `t`. */
  lemma {:induction false} DescendantTag(el: Element, t: string)
    ensures DescPath(el, [t]) <==> t in TagsBelow(el)
    decreases el
  {
    TagsBelowMember(el, t);
    assert [t][1..] == [];
    forall i | 0 <= i < |el.children|
      ensures DescPath(el.children[i], [t]) <==> t in TagsBelow(el.children[i])
    {
      DescendantTag(el.children[i], t);
    }
  }

  /** The evaluated expression `//t`, for a plain tag `t`. */
  lemma DescendantExpr(el: Element, t: string)
    requires PlainName(t)
    ensures Matches(el, "//" + t) <==> t in TagsBelow(el)
  {
    var expr := "//" + t;
    assert expr[2..] == t;
    assert '/' !in t by {
      forall i | 0 <= i < |t| ensures t[i] != '/' {
        assert IsNameChar(t[i]);
      }
    }
    SplitNoSlash(t);
    DescendantTag(el, t);
  }

  /** A bare tag `t` holds iff some direct child has tag `t`. */
  lemma BareTagExpr(el: Element, t: string)
    requires PlainName(t)
    ensures Matches(el, t) <==> t in ChildTags(el)
  {
    assert '/' !in t by {
      forall i | 0 <= i < |t| ensures t[i] != '/' {
        assert IsNameChar(t[i]);
      }
    }
    SplitNoSlash(t);
    assert !StartsWith(t, "/") by {
      assert IsNameChar(t[0]);
    }
    assert [t][1..] == [];
    if t in ChildTags(el) {
      var i :| 0 <= i < |el.children| && el.children[i].tag == t;
      assert ChildPath(el.children[i], []);
    }
  }

  /** A successful absolute walk is a chain of children with the given tags,
      so the relative form of the same steps holds too. */
  lemma {:induction false} WalkIsChildPath(el: Element, parts: seq<string>)
    requires Walk(el, parts).Some?
    ensures ChildPath(el, parts)
    ensures forall i :: 0 <= i < |parts| ==> PlainName(parts[i])
    decreases |parts|
  {
    if parts != [] {
      var k := FirstWithTag(el.children, parts[0]).value;
      WalkIsChildPath(el.children[k], parts[1..]);
      assert el.children[k].tag == parts[0];
      forall i | 0 <= i < |parts| ensures PlainName(parts[i]) {
        if i > 0 {
          assert parts[i] == parts[1..][i - 1];
        }
      }
    }
  }

  /** The absolute walk does not backtrack: in `<r><a/><a><b/></a></r>` the
      relative path `a/b` is found, but `/a/b` follows the first `a` and
      fails. */
  lemma FirstChildOnly()
    ensures var r := Element("r", [Element("a", []), Element("a", [Element("b", [])])]);
      Matches(r, "a/b") && !Matches(r, "/a/b")
  {
    var b := Element("b", []);
    var a2 := Element("a", [b]);
    var r := Element("r", [Element("a", []), a2]);
    var ab: string := "a/b";
    var slashAb: string := "/a/b";
    SplitTwoSteps();
    assert slashAb[1..] == ab;
    assert StartsWith(slashAb, "/") && !StartsWith(slashAb, "//");
    assert !StartsWith(ab, "/");
    assert PlainName("a") && PlainName("b");
    assert ChildPath(b, []);
    assert ChildPath(a2, ["b"]) by {
      assert a2.children[0].tag == "b" && ["b"][1..] == [];
    }
    assert ChildPath(r, ["a", "b"]) by {
      assert r.children[1] == a2 && ["a", "b"][1..] == ["b"];
    }
    WalkFirstChild(r);
  }

  /** `a/b` splits into its two steps. */
  lemma SplitTwoSteps()
    ensures SplitSlash("a/b") == ["a", "b"]
  {
    var ab: string := "a/b";
    var sb: string := "/b";
    assert ab[1..] == sb && sb[1..] == "b" && ab[2..] == "b";
    assert '/' !in "b";
    SplitNoSlash("b");
    assert SplitSlash(sb) == ["", "b"];
    assert SplitSlash(ab) == [[ab[0]] + SplitSlash(sb)[0]] + SplitSlash(sb)[1..];
    assert [ab[0]] + "" == "a" && ["", "b"][1..] == ["b"];
  }

  /** The walk for `a`, `b` enters the first `a`, which has no children. */
  lemma WalkFirstChild(r: Element)
    requires r.children == [Element("a", []), Element("a", [Element("b", [])])]
    ensures Walk(r, ["a", "b"]) == None
  {
    assert PlainName("a") && PlainName("b");
    assert FirstWithTag(r.children, "a") == Some(0);
    assert ["a", "b"][1..] == ["b"];
    assert Walk(r, ["a", "b"]) == Walk(Element("a", []), ["b"]);
  }

  // ---------------------------------------------------------------------------
  // The engine and its streamed search

  /** `XPathSearchEngine`: the stripped, non-blank expressions. */
  datatype XPathEngine = XPathEngine(expressions: seq<string>)

  /** `XPathSearchEngine.__init__`. */
  function NewXPathEngine(expressions: seq<string>): (r: Result<XPathEngine>)
    ensures r.Err? <==> forall i :: 0 <= i < |expressions| ==> Strip(expressions[i]) == []
    ensures r.Err? ==> r.error == "At least one XPath expression is required"
    ensures r.Ok? ==> r.value.expressions == SearchEngine.CleanKeywords(expressions)
                      && |r.value.expressions| > 0
    ensures r.Ok? ==> forall x :: x in r.value.expressions <==>
                        x != [] && exists i :: 0 <= i < |expressions| && x == Strip(expressions[i])
  {
    var cleaned := SearchEngine.CleanKeywords(expressions);
    SearchEngine.CleanKeywordsEmpty(expressions);
    forall x ensures x in cleaned <==> x != [] && exists i :: 0 <= i < |expressions| && x == Strip(expressions[i]) {
      SearchEngine.CleanKeywordsMembers(expressions, x);
    }
    if cleaned == [] then Err("At least one XPath expression is required")
    else Ok(XPathEngine(cleaned))
  }

  /** An element as the evaluator sees it at its end event: each child has
      already been cleared at its own end event, so only the children's tags
      remain. */
  function Cleared(el: Element): (c: Element)
    ensures c.tag == el.tag && |c.children| == |el.children|
    ensures forall i :: 0 <= i < |c.children| ==>
              c.children[i].tag == el.children[i].tag && c.children[i].children == []
  {
    Element(el.tag, seq(|el.children|, i requires 0 <= i < |el.children| => Element(el.children[i].tag, [])))
  }

  /** The elements, as seen at their end events, of a well-formed document:
      children before their parent, in document order. */
  function EndEvents(el: Element): seq<Element>
    decreases el, 1
  {
    EndEventsFrom(el, 0) + [Cleared(el)]
  }

  function EndEventsFrom(el: Element, i: nat): seq<Element>
    requires i <= |el.children|
    decreases el, 0, |el.children| - i
  {
    if i == |el.children| then [] else EndEvents(el.children[i]) + EndEventsFrom(el, i + 1)
  }

  /** No element seen at an end event has grandchildren. */
  predicate Shallow(el: Element) {
    forall i :: 0 <= i < |el.children| ==> el.children[i].children == []
  }

  lemma {:induction false} EndEventsShallow(el: Element)
    ensures forall k :: 0 <= k < |EndEvents(el)| ==> Shallow(EndEvents(el)[k])
    decreases el, 1
  {
    EndEventsFromShallow(el, 0);
  }

  lemma {:induction false} EndEventsFromShallow(el: Element, i: nat)
    requires i <= |el.children|
    ensures forall k :: 0 <= k < |EndEventsFrom(el, i)| ==> Shallow(EndEventsFrom(el, i)[k])
    decreases el, 0, |el.children| - i
  {
    if i < |el.children| {
      EndEventsShallow(el.children[i]);
      EndEventsFromShallow(el, i + 1);
    }
  }

  /** On an element without grandchildren no path of two or more steps is
      found, in any of the three forms. */
  lemma ShallowNoLongPath(el: Element, steps: seq<string>)
    requires Shallow(el) && |steps| >= 2
    ensures !ChildPath(el, steps) && !DescPath(el, steps) && Walk(el, steps).None?
  {
    forall i | 0 <= i < |el.children|
      ensures !ChildPath(el.children[i], steps[1..]) && !DescPath(el.children[i], steps)
    {
    }
    if FirstWithTag(el.children, steps[0]).Some? {
      var k := FirstWithTag(el.children, steps[0]).value;
      assert steps[1..] != [];
      if PlainName(steps[1]) {
        assert FirstWithTag(el.children[k].children, steps[1..][0]).None?;
      }
    }
  }

  /** Because of the clearing, a multi-step expression never matches during
      the streamed search of a well-formed document. */
  lemma StreamedLongPathNeverMatches(root: Element, steps: seq<string>)
    requires |steps| >= 2
    ensures forall k :: 0 <= k < |EndEvents(root)| ==>
      !ChildPath(EndEvents(root)[k], steps) && !DescPath(EndEvents(root)[k], steps)
      && Walk(EndEvents(root)[k], steps).None?
  {
    EndEventsShallow(root);
    forall k | 0 <= k < |EndEvents(root)|
      ensures !ChildPath(EndEvents(root)[k], steps) && !DescPath(EndEvents(root)[k], steps)
              && Walk(EndEvents(root)[k], steps).None?
    {
      ShallowNoLongPath(EndEvents(root)[k], steps);
    }
  }

  /** The child tags seen over a sequence of end events. */
  function StreamTags(evs: seq<Element>): set<string> {
    if evs == [] then {} else ChildTags(evs[0]) + StreamTags(evs[1..])
  }

  lemma {:induction false} StreamTagsConcat(a: seq<Element>, b: seq<Element>)
    ensures StreamTags(a + b) == StreamTags(a) + StreamTags(b)
  {
    if a == [] {
      assert a + b == b;
    } else {
      assert (a + b)[1..] == a[1..] + b;
      StreamTagsConcat(a[1..], b);
    }
  }

  lemma {:induction false} StreamTagsMember(evs: seq<Element>, t: string)
    ensures t in StreamTags(evs) <==> exists k :: 0 <= k < |evs| && t in ChildTags(evs[k])
  {
    if evs != [] {
      StreamTagsMember(evs[1..], t);
      if exists k :: 0 <= k < |evs[1..]| && t in ChildTags(evs[1..][k]) {
        var k :| 0 <= k < |evs[1..]| && t in ChildTags(evs[1..][k]);
        assert evs[k + 1] == evs[1..][k];
      }
      if exists k :: 1 <= k < |evs| && t in ChildTags(evs[k]) {
        var k :| 1 <= k < |evs| && t in ChildTags(evs[k]);
        assert evs[1..][k - 1] == evs[k];
      }
    }
  }

  /** Over the end events of a document, the children seen are exactly the
      proper descendants of the root. */
  lemma {:induction false} StreamTagsOfEvents(el: Element)
    ensures StreamTags(EndEvents(el)) == TagsBelow(el)
    decreases el, 1
  {
    StreamTagsOfEventsFrom(el, 0);
    StreamTagsConcat(EndEventsFrom(el, 0), [Cleared(el)]);
    assert StreamTags([Cleared(el)]) == ChildTags(Cleared(el));
    assert ChildTags(Cleared(el)) == ChildTags(el);
  }

  lemma {:induction false} StreamTagsOfEventsFrom(el: Element, i: nat)
    requires i <= |el.children|
    ensures StreamTags(EndEventsFrom(el, i)) == DeepTags(el, i)
    decreases el, 0, |el.children| - i
  {
    if i < |el.children| {
      StreamTagsOfEvents(el.children[i]);
      StreamTagsOfEventsFrom(el, i + 1);
      StreamTagsConcat(EndEvents(el.children[i]), EndEventsFrom(el, i + 1));
    }
  }

  /** On an element without grandchildren `//t` means a child with tag `t`. */
  lemma ShallowDescendant(el: Element, t: string)
    requires Shallow(el)
    ensures DescPath(el, [t]) <==> t in ChildTags(el)
  {
    DescendantTag(el, t);
    TagsBelowMember(el, t);
    forall i | 0 <= i < |el.children| ensures TagsBelow(el.children[i]) == {} {
      assert ChildTags(el.children[i]) == {};
    }
  }

  /** The streamed `//t`: some end event of a well-formed document matches
      iff some element other than the root has tag `t`. */
  lemma StreamedDescendant(root: Element, t: string)
    requires PlainName(t)
    ensures (exists k :: 0 <= k < |EndEvents(root)| && Matches(EndEvents(root)[k], "//" + t))
            <==> t in TagsBelow(root)
  {
    var evs := EndEvents(root);
    EndEventsShallow(root);
    StreamTagsOfEvents(root);
    StreamTagsMember(evs, t);
    forall k | 0 <= k < |evs| ensures Matches(evs[k], "//" + t) <==> t in ChildTags(evs[k]) {
      DescendantExpr(evs[k], t);
      ShallowDescendant(evs[k], t);
      DescendantTag(evs[k], t);
    }
  }

  /** An evaluation of an expression at an element; the engine's is
      `Matches`. */
  type Evaluation = (Element, string) -> bool

  /** The first end event, then the first expression in list order, that
      the evaluation accepts: the pair (event index, expression index). */
  function FirstXPathHit(matches: Evaluation, exprs: seq<string>, evs: seq<Element>): (r: Option<(nat, nat)>)
    ensures r.Some? ==> r.value.0 < |evs| && r.value.1 < |exprs|
                        && matches(evs[r.value.0], exprs[r.value.1])
    ensures r.Some? ==> forall j :: 0 <= j < r.value.1 ==> !matches(evs[r.value.0], exprs[j])
    ensures r.Some? ==> forall k, j :: 0 <= k < r.value.0 && 0 <= j < |exprs| ==> !matches(evs[k], exprs[j])
    ensures r.None? <==> forall k, j :: 0 <= k < |evs| && 0 <= j < |exprs| ==> !matches(evs[k], exprs[j])
  {
    if evs == [] then None
    else match FirstExprHit(matches, exprs, evs[0])
      case Some(j) => Some((0, j))
      case None =>
        match FirstXPathHit(matches, exprs, evs[1..])
        case None => None
        case Some((k, j)) => Some((k + 1, j))
  }

  function FirstExprHit(matches: Evaluation, exprs: seq<string>, el: Element): (r: Option<nat>)
    ensures r.Some? ==> r.value < |exprs| && matches(el, exprs[r.value])
                        && forall j :: 0 <= j < r.value ==> !matches(el, exprs[j])
    ensures r.None? ==> forall j :: 0 <= j < |exprs| ==> !matches(el, exprs[j])
  {
    if exprs == [] then None
    else if matches(el, exprs[0]) then Some(0)
    else match FirstExprHit(matches, exprs[1..], el)
      case None => None
      case Some(j) => Some(j + 1)
  }

  /** The result of the streamed search.  The whole file is collected before
      parsing, so a failed transfer gives no result; a parse error stops the
      events early, which `evs` already reflects. */
  function XPathOutcome(e: XPathEngine, evs: seq<Element>, transferFails: bool,
                        dateDir: string, filename: string): Option<SearchEngine.SearchResult>
  {
    if transferFails then None
    else match FirstXPathHit(Matches, e.expressions, evs)
      case None => None
      case Some((_, j)) => Some(XPathHit(e.expressions[j], dateDir, filename))
  }

  function XPathHit(expr: string, dateDir: string, filename: string): (r: SearchEngine.SearchResult)
    ensures r.dateDir == dateDir && r.filename == filename
    ensures r.matchType == XPathMatch && r.matchContent == "XPath: " + expr && r.lineNumber == 0
  {
    SearchEngine.SearchResult(dateDir, filename, XPathMatch, "XPath: " + expr, 0)
  }

  /** `XPathSearchEngine.search_in_stream`.  `evs` are the elements at their
      end events, as the parser delivers them (for a well-formed document,
      `EndEvents` of its root). */
  method XPathSearchInStream(e: XPathEngine, evs: seq<Element>, transferFails: bool,
                             dateDir: string, filename: string)
    returns (r: Option<SearchEngine.SearchResult>)
    ensures r == XPathOutcome(e, evs, transferFails, dateDir, filename)
    ensures r.Some? ==> r.value.matchType == XPathMatch && r.value.lineNumber == 0
                        && exists j :: 0 <= j < |e.expressions| && r.value.matchContent == "XPath: " + e.expressions[j]
  {
    if transferFails {
      return None;
    }
    var exprs := e.expressions;
    ghost var goal := FirstXPathHit(Matches, exprs, evs);
    var k := 0;
    assert evs[0..] == evs;
    while k < |evs|
      invariant 0 <= k <= |evs|
      invariant goal == Shifted(FirstXPathHit(Matches, exprs, evs[k..]), k)
    {
      var hit := FirstMatchingExpression(exprs, evs[k]);
      XPathHitAt(Matches, exprs, evs, k);
      if hit.Some? {
        return Some(XPathHit(exprs[hit.value], dateDir, filename));
      }
      k := k + 1;
    }
    assert evs[k..] == [];
    return None;
  }

  /** The expression loop for one end event: the first expression that
      matches the element. */
  method FirstMatchingExpression(exprs: seq<string>, el: Element) returns (hit: Option<nat>)
    ensures hit == FirstExprHit(Matches, exprs, el)
  {
    var j := 0;
    while j < |exprs|
      invariant 0 <= j <= |exprs|
      invariant forall q :: 0 <= q < j ==> !Matches(el, exprs[q])
    {
      var b := EvaluateXPath(el, exprs[j]);
      if b {
        FirstExprHitIs(Matches, exprs, el, j);
        return Some(j);
      }
      j := j + 1;
    }
    return None;
  }

  /** A hit found in a suffix, placed back at its position in the events. */
  function Shifted(o: Option<(nat, nat)>, k: nat): Option<(nat, nat)> {
    if o.None? then None else Some((o.value.0 + k, o.value.1))
  }

  /** The search from the k-th event checks that event's expressions first,
      then the later events. */
  lemma XPathHitAt(matches: Evaluation, exprs: seq<string>, evs: seq<Element>, k: nat)
    requires k < |evs|
    ensures FirstExprHit(matches, exprs, evs[k]).Some? ==>
      Shifted(FirstXPathHit(matches, exprs, evs[k..]), k) == Some((k, FirstExprHit(matches, exprs, evs[k]).value))
    ensures FirstExprHit(matches, exprs, evs[k]).None? ==>
      Shifted(FirstXPathHit(matches, exprs, evs[k..]), k) == Shifted(FirstXPathHit(matches, exprs, evs[k + 1..]), k + 1)
  {
    assert evs[k..][0] == evs[k] && evs[k..][1..] == evs[k + 1..];
  }

  lemma FirstExprHitIs(matches: Evaluation, exprs: seq<string>, el: Element, j: nat)
    requires j < |exprs| && matches(el, exprs[j])
    requires forall q :: 0 <= q < j ==> !matches(el, exprs[q])
    ensures FirstExprHit(matches, exprs, el) == Some(j)
  {
    var r := FirstExprHit(matches, exprs, el);
    assert r.Some?;
  }
}
