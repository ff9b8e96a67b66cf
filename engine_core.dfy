/** The building blocks of framework/utils/metaEngine.js that every handler
    shares: an operation's execution against the driver, the wait wrapper,
    the page and element lookups, the regular-expression escape and the job id
    extraction from a URL. */
module EngineCore {
  import opened Wrappers
  import opened Js
  import opened Driver
  import opened Errors
  import opened Defs

  /** What an operation did: how it ended and the history after it. */
  datatype Exec = Exec(outcome: Outcome<Error>, history: seq<Call>)

  /** An action or expectation against the page: it is recorded and fails when
      the page says so (a driver timeout, a failed expectation). */
  function Issue(w: World, h: seq<Call>, c: Call): (e: Exec)
    ensures e.history == h + [c]
    ensures e.outcome == Pass <==> !w.fails(h, c)
    ensures e.outcome.Fail? ==> e.outcome.error == DriverFailure(c)
  {
    Exec(if w.fails(h, c) then Fail(DriverFailure(c)) else Pass, h + [c])
  }

  /** `waitForElement`: wait until the first match is visible; a timeout
      becomes "Element not visible in time". */
  function WaitForElement(w: World, h: seq<Call>, sel: string): (e: Exec)
    ensures e.history == h + [WaitVisible(sel)]
    ensures e.outcome == Pass <==> !w.fails(h, WaitVisible(sel))
    ensures e.outcome.Fail? ==> e.outcome.error == NotVisibleInTime(sel)
  {
    Exec(if w.fails(h, WaitVisible(sel)) then Fail(NotVisibleInTime(sel)) else Pass, h + [WaitVisible(sel)])
  }

  /** `page.waitForTimeout(ms)`: recorded, never fails. */
  function Sleep(h: seq<Call>, ms: nat): seq<Call>
  {
    h + [Pause(ms)]
  }

  /** `h2` continues `h`: a history only ever grows. */
  predicate Extends(h: seq<Call>, h2: seq<Call>)
  {
    |h| <= |h2| && h2[..|h|] == h
  }

  lemma ExtendsTrans(a: seq<Call>, b: seq<Call>, c: seq<Call>)
    requires Extends(a, b) && Extends(b, c)
    ensures Extends(a, c)
  {
    assert c[..|a|] == c[..|b|][..|a|];
  }

  lemma ExtendsAppend(h: seq<Call>, tail: seq<Call>)
    ensures Extends(h, h + tail)
  {
    assert (h + tail)[..|h|] == h;
  }

  // ---------------------------------------------------------------------
  // Page and element metadata
  // ---------------------------------------------------------------------

  /** `getPageConfig`: the page definition by name, "Page not found" otherwise. */
  function GetPageConfig(pages: map<string, PageDef>, name: string): (r: Result<PageDef, Error>)
    ensures r.Ok? <==> name in pages
    ensures r.Ok? ==> r.value == pages[name]
    ensures r.Err? ==> r.error == PageNotFound(name)
  {
    if name in pages then Ok(pages[name]) else Err(PageNotFound(name))
  }

  /** Position of the first element named `name`, or `|els|`. */
  function FindElement(els: seq<ElementDef>, name: string): (i: nat)
    ensures i <= |els|
    ensures i < |els| ==> els[i].name == name
    ensures forall j :: 0 <= j < i ==> els[j].name != name
  {
    if els == [] then 0 else if els[0].name == name then 0 else 1 + FindElement(els[1..], name)
  }

  /** `getElement`: the first element of the page with that name. Before any
      page has been entered there is no page configuration to look in. */
  function GetElement(pageConfig: Option<PageDef>, name: string): (r: Result<ElementDef, Error>)
    ensures pageConfig.None? ==> r == Err(NoPageContext)
    ensures pageConfig.Some? ==>
              (r.Ok? <==> exists j :: 0 <= j < |pageConfig.value.elements| && pageConfig.value.elements[j].name == name)
    ensures r.Ok? ==> pageConfig.Some? && r.value.name == name
    ensures r.Ok? ==> exists i :: 0 <= i < |pageConfig.value.elements| && pageConfig.value.elements[i] == r.value
                                  && forall k :: 0 <= k < i ==> pageConfig.value.elements[k].name != name
    ensures r.Err? && pageConfig.Some? ==> r.error == ElementNotFound(name, pageConfig.value.page)
  {
    if pageConfig.None? then Err(NoPageContext)
    else
      var els := pageConfig.value.elements;
      var i := FindElement(els, name);
      if i < |els| then Ok(els[i])
      else Err(ElementNotFound(name, pageConfig.value.page))
  }

  // ---------------------------------------------------------------------
  // escapeRegex
  // ---------------------------------------------------------------------

  /** The characters `escapeRegex` prefixes with a backslash. */
  predicate IsRegexSpecial(c: char)
  {
    c in ".*+?^${}()|[]\\"
  }

  /** `escapeRegex(text)`: every special character gets a backslash. */
  function EscapeRegex(text: string): (r: string)
    ensures |r| >= |text|
  {
    if text == [] then ""
    else (if IsRegexSpecial(text[0]) then ['\\', text[0]] else [text[0]]) + EscapeRegex(text[1..])
  }

  /** Reading an escaped pattern back: a backslash stands for the next
      character. */
  function UnescapeRegex(p: string): string
  {
    if p == [] then ""
    else if p[0] == '\\' && |p| >= 2 then [p[1]] + UnescapeRegex(p[2..])
    else [p[0]] + UnescapeRegex(p[1..])
  }

  /** A pattern in which every special character is escaped: read literally it
      matches nothing but itself. */
  predicate IsLiteralPattern(p: string)
    decreases |p|
  {
    if p == [] then true
    else if p[0] == '\\' then |p| >= 2 && IsRegexSpecial(p[1]) && IsLiteralPattern(p[2..])
    else !IsRegexSpecial(p[0]) && IsLiteralPattern(p[1..])
  }

  /** The escaped text is a literal pattern whose literal reading is the text. */
  lemma {:induction false} EscapeRegexRoundTrip(text: string)
    ensures IsLiteralPattern(EscapeRegex(text))
    ensures UnescapeRegex(EscapeRegex(text)) == text
  {
    if text != [] {
      EscapeRegexRoundTrip(text[1..]);
      var rest := EscapeRegex(text[1..]);
      if IsRegexSpecial(text[0]) {
        assert EscapeRegex(text) == ['\\', text[0]] + rest;
        assert (['\\', text[0]] + rest)[2..] == rest;
      } else {
        assert EscapeRegex(text) == [text[0]] + rest;
        assert ([text[0]] + rest)[1..] == rest;
      }
    }
  }

  /** Text without special characters is its own pattern. */
  lemma {:induction false} EscapePlainText(text: string)
    requires forall i :: 0 <= i < |text| ==> !IsRegexSpecial(text[i])
    ensures EscapeRegex(text) == text
  {
    if text != [] {
      EscapePlainText(text[1..]);
    }
  }

  // ---------------------------------------------------------------------
  // Job id in the URL: /\/j\/(\d+)\//
  // ---------------------------------------------------------------------

  /** Length of the run of digits starting at `i`. */
  function DigitsAt(s: string, i: nat): (n: nat)
    requires i <= |s|
    ensures i + n <= |s|
    ensures forall k :: i <= k < i + n ==> IsDigit(s[k])
    ensures i + n < |s| ==> !IsDigit(s[i + n])
    decreases |s| - i
  {
    if i == |s| || !IsDigit(s[i]) then 0 else 1 + DigitsAt(s, i + 1)
  }

  /** The pattern matches at `i`: "/j/", one or more digits (all of the run,
      since a digit cannot stand for the closing slash), then "/". */
  predicate JobIdAt(s: string, i: nat)
  {
    && i + 3 <= |s| && s[i..i + 3] == "/j/"
    && var n := DigitsAt(s, i + 3);
       n > 0 && i + 3 + n < |s| && s[i + 3 + n] == '/'
  }

  /** The first capture group of the leftmost match at or after `i`. */
  function ExtractJobIdFrom(s: string, i: nat): Option<string>
    decreases |s| - i
  {
    if i >= |s| then None
    else if JobIdAt(s, i) then Some(s[i + 3..i + 3 + DigitsAt(s, i + 3)])
    else ExtractJobIdFrom(s, i + 1)
  }

  function ExtractJobId(url: string): Option<string>
  {
    ExtractJobIdFrom(url, 0)
  }

  predicate AllDigits(s: string)
  {
    forall i :: 0 <= i < |s| ==> IsDigit(s[i])
  }

  /** The pattern matches at `p` and nowhere in `i..p`, and the function
      returns the digits there. */
  ghost predicate FirstJobIdAt(s: string, i: nat, p: nat, id: string)
  {
    i <= p && JobIdAt(s, p) && id == s[p + 3..p + 3 + DigitsAt(s, p + 3)]
    && forall q :: i <= q < p ==> !JobIdAt(s, q)
  }

  lemma {:induction false} ExtractJobIdPosition(s: string, i: nat) returns (p: nat)
    requires ExtractJobIdFrom(s, i).Some?
    ensures FirstJobIdAt(s, i, p, ExtractJobIdFrom(s, i).value)
    decreases |s| - i
  {
    if JobIdAt(s, i) {
      p := i;
    } else {
      assert ExtractJobIdFrom(s, i) == ExtractJobIdFrom(s, i + 1);
      p := ExtractJobIdPosition(s, i + 1);
    }
  }

  /** A found id is a digit run that sits between "/j/" and "/" in the URL,
      at the leftmost place where the pattern matches. */
  lemma ExtractJobIdSound(s: string, i: nat)
    requires ExtractJobIdFrom(s, i).Some?
    ensures exists p :: FirstJobIdAt(s, i, p, ExtractJobIdFrom(s, i).value)
    ensures var id := ExtractJobIdFrom(s, i).value; id != [] && AllDigits(id)
  {
    var p := ExtractJobIdPosition(s, i);
    var id := ExtractJobIdFrom(s, i).value;
    assert forall k :: 0 <= k < |id| ==> id[k] == s[p + 3 + k];
  }

  /** A URL of the form pre + "/j/" + id + "/" + post, with `id` a nonempty
      digit run and no earlier match inside `pre`, yields `id`. */
  lemma ExtractJobIdComplete(pre: string, id: string, post: string)
    requires id != [] && AllDigits(id)
    requires forall q :: 0 <= q < |pre| ==> !JobIdAt(pre + "/j/" + id + "/" + post, q)
    ensures ExtractJobId(pre + "/j/" + id + "/" + post) == Some(id)
  {
    var s := pre + "/j/" + id + "/" + post;
    var p := |pre|;
    assert s[p..p + 3] == "/j/";
    DigitsAtRun(s, p + 3, |id|);
    assert s[p + 3..p + 3 + |id|] == id;
    assert JobIdAt(s, p);
    SkipToMatch(s, 0, p);
  }

  lemma {:induction false} DigitsAtRun(s: string, i: nat, n: nat)
    requires i + n < |s| && (forall k :: i <= k < i + n ==> IsDigit(s[k])) && !IsDigit(s[i + n])
    ensures DigitsAt(s, i) == n
    decreases n
  {
    if n > 0 {
      DigitsAtRun(s, i + 1, n - 1);
    }
  }

  lemma {:induction false} SkipToMatch(s: string, i: nat, p: nat)
    requires i <= p < |s| && JobIdAt(s, p) && forall q :: i <= q < p ==> !JobIdAt(s, q)
    ensures ExtractJobIdFrom(s, i) == Some(s[p + 3..p + 3 + DigitsAt(s, p + 3)])
    decreases p - i
  {
    if i < p {
      SkipToMatch(s, i + 1, p);
    }
  }
}
