/** The assertion engine of framework/utils/metaEngine.js (`performAssert`):
    after waiting for the element, check visibility, text, containment, list
    membership (polled) or input value. */
module Assertions {
  import opened Wrappers
  import opened Js
  import opened Driver
  import opened Errors
  import opened Defs
  import opened EngineCore

  /** How often, and how far apart, the list is read for `arrayContains`. */
  const ListPolls: nat := 5
  const ListPollPause: nat := 300

  /** The list texts trimmed, lower-cased and without the empty ones. */
  function CleanList(items: seq<string>): seq<string>
  {
    if items == [] then []
    else
      var t := Lower(Trim(items[0]));
      var rest := CleanList(items[1..]);
      if t == "" then rest else [t] + rest
  }

  /** The cleaned texts are the nonempty trimmed, lower-cased texts. */
  lemma {:induction false} CleanListMeaning(items: seq<string>)
    ensures forall x :: x in CleanList(items) ==> x != "" && exists i :: 0 <= i < |items| && x == Lower(Trim(items[i]))
    ensures forall i :: 0 <= i < |items| && Lower(Trim(items[i])) != "" ==> Lower(Trim(items[i])) in CleanList(items)
  {
    if items != [] {
      CleanListMeaning(items[1..]);
      assert forall i :: 1 <= i < |items| ==> items[1..][i - 1] == items[i];
    }
  }

  /** `cleaned.includes(expected)`: only a string can be among the texts, and
      it is compared as given. */
  predicate Listed(items: seq<string>, expected: Value)
  {
    expected.Str? && expected.s in CleanList(items)
  }

  /** `k` more reads of the list, each followed by a pause when the expected
      text is not among the texts. */
  function PollList(w: World, h: seq<Call>, sel: string, expected: Value, k: nat): Exec
    decreases k
  {
    if k == 0 then Exec(Fail(NotFoundInList(expected)), h)
    else
      var items := w.allInnerTexts(h, sel);
      var h1 := h + [AskAllInnerTexts(sel)];
      if Listed(items, expected) then Exec(Pass, h1)
      else PollList(w, Sleep(h1, ListPollPause), sel, expected, k - 1)
  }

  method PollArrayContains(w: World, h: seq<Call>, sel: string, expected: Value) returns (e: Exec)
    ensures e == PollList(w, h, sel, expected, ListPolls)
  {
    e := PollAttempts(w, h, sel, expected, ListPolls);
  }

  /** The poll loop for `attempts` reads. */
  method PollAttempts(w: World, h: seq<Call>, sel: string, expected: Value, attempts: nat) returns (e: Exec)
    ensures e == PollList(w, h, sel, expected, attempts)
  {
    var cur := h;
    for i := 0 to attempts
      invariant PollList(w, cur, sel, expected, attempts - i) == PollList(w, h, sel, expected, attempts)
    {
      var items := w.allInnerTexts(cur, sel);
      cur := cur + [AskAllInnerTexts(sel)];
      if Listed(items, expected) {
        return Exec(Pass, cur);
      }
      cur := Sleep(cur, ListPollPause);
    }
    e := Exec(Fail(NotFoundInList(expected)), cur);
  }

  /** The list is read at most `k` times; a pass comes right after a read that
      showed the expected text. */
  lemma PollListBounded(w: World, h: seq<Call>, sel: string, expected: Value, k: nat)
    ensures var e := PollList(w, h, sel, expected, k);
            Count(e.history, AskAllInnerTexts(sel)) <= Count(h, AskAllInnerTexts(sel)) + k
    ensures var e := PollList(w, h, sel, expected, k);
            e.outcome == Pass ==>
              |e.history| >= 1 && e.history[|e.history| - 1] == AskAllInnerTexts(sel)
              && Listed(w.allInnerTexts(e.history[..|e.history| - 1], sel), expected)
    ensures PollList(w, h, sel, expected, k).outcome.Fail? ==>
              PollList(w, h, sel, expected, k).outcome == Fail(NotFoundInList(expected))
  {
    PollListReads(w, h, sel, expected, k);
    PollListPass(w, h, sel, expected, k);
    PollListFail(w, h, sel, expected, k);
  }

  lemma {:induction false} PollListReads(w: World, h: seq<Call>, sel: string, expected: Value, k: nat)
    decreases k
    ensures Count(PollList(w, h, sel, expected, k).history, AskAllInnerTexts(sel)) <= Count(h, AskAllInnerTexts(sel)) + k
  {
    if k > 0 {
      var h1 := h + [AskAllInnerTexts(sel)];
      CountSame(h, AskAllInnerTexts(sel));
      if !Listed(w.allInnerTexts(h, sel), expected) {
        assert PollList(w, h, sel, expected, k) == PollList(w, Sleep(h1, ListPollPause), sel, expected, k - 1);
        CountOther(h1, Pause(ListPollPause), AskAllInnerTexts(sel));
        PollListReads(w, Sleep(h1, ListPollPause), sel, expected, k - 1);
      }
    }
  }

  lemma {:induction false} PollListPass(w: World, h: seq<Call>, sel: string, expected: Value, k: nat)
    decreases k
    ensures var e := PollList(w, h, sel, expected, k);
            e.outcome == Pass ==>
              |e.history| >= 1 && e.history[|e.history| - 1] == AskAllInnerTexts(sel)
              && Listed(w.allInnerTexts(e.history[..|e.history| - 1], sel), expected)
  {
    if k > 0 {
      var h1 := h + [AskAllInnerTexts(sel)];
      if Listed(w.allInnerTexts(h, sel), expected) {
        assert PollList(w, h, sel, expected, k) == Exec(Pass, h1);
        assert h1[..|h1| - 1] == h;
      } else {
        assert PollList(w, h, sel, expected, k) == PollList(w, Sleep(h1, ListPollPause), sel, expected, k - 1);
        PollListPass(w, Sleep(h1, ListPollPause), sel, expected, k - 1);
      }
    }
  }

  lemma {:induction false} PollListFail(w: World, h: seq<Call>, sel: string, expected: Value, k: nat)
    decreases k
    ensures PollList(w, h, sel, expected, k).outcome.Fail? ==>
              PollList(w, h, sel, expected, k).outcome == Fail(NotFoundInList(expected))
  {
    if k > 0 && !Listed(w.allInnerTexts(h, sel), expected) {
      PollListFail(w, Sleep(h + [AskAllInnerTexts(sel)], ListPollPause), sel, expected, k - 1);
    }
  }

  /** A list that never shows the expected text is read exactly `k` times,
      with a pause after every read, and the assertion fails. */
  lemma {:induction false} PollListExhausts(w: World, h: seq<Call>, sel: string, expected: Value, k: nat)
    requires forall hh :: !Listed(w.allInnerTexts(hh, sel), expected)
    ensures var e := PollList(w, h, sel, expected, k);
            e.outcome == Fail(NotFoundInList(expected))
            && Count(e.history, AskAllInnerTexts(sel)) == Count(h, AskAllInnerTexts(sel)) + k
            && Count(e.history, Pause(ListPollPause)) == Count(h, Pause(ListPollPause)) + k
    decreases k
  {
    if k > 0 {
      var h1 := h + [AskAllInnerTexts(sel)];
      CountSame(h, AskAllInnerTexts(sel));
      CountOther(h, AskAllInnerTexts(sel), Pause(ListPollPause));
      CountOther(h1, Pause(ListPollPause), AskAllInnerTexts(sel));
      CountSame(h1, Pause(ListPollPause));
      PollListExhausts(w, Sleep(h1, ListPollPause), sel, expected, k - 1);
    }
  }

  /** The texts are lower-cased but the expected value is not: an expected
      text with an upper-case letter is never found. */
  lemma UpperCaseNeverListed(items: seq<string>, expected: string, j: nat)
    requires j < |expected| && 'A' <= expected[j] <= 'Z'
    ensures !Listed(items, Str(expected))
  {
    CleanListMeaning(items);
    if expected in CleanList(items) {
      var i :| 0 <= i < |items| && expected == Lower(Trim(items[i]));
      NoUpperAfterLower(Trim(items[i]), j);
    }
  }

  lemma NoUpperAfterLower(s: string, j: nat)
    requires j < |s|
    ensures !('A' <= Lower(s)[j] <= 'Z')
  {
  }

  /** `performAssert(element, assertType, expected)`. */
  function AssertSpec(w: World, h: seq<Call>, el: ElementDef, assertType: string, expected: Value): Exec
  {
    var loc := el.locator;
    var e1 := WaitForElement(w, h, loc);
    if e1.outcome.Fail? then e1
    else
      var h1 := e1.history;
      if assertType == "visible" then Issue(w, h1, ExpectVisible(loc))
      else if assertType == "hidden" then Issue(w, h1, ExpectHidden(loc))
      else if assertType == "text" then Issue(w, h1, ExpectText(loc, expected))
      else if assertType == "contains" then
        var q := Issue(w, h1, AskInnerText(loc));
        if q.outcome.Fail? then q
        else
          var one := w.innerText(h1, loc);
          Exec(if expected.Str? && IsSubstring(expected.s, one) then Pass else Fail(AssertionFailed(one, expected)), q.history)
      else if assertType == "arrayContains" then PollList(w, h1, loc, expected, ListPolls)
      else if assertType == "value" then
        var q := Issue(w, h1, AskInputValue(loc));
        if q.outcome.Fail? then q
        else
          var val := w.inputValue(h1, loc);
          Exec(if expected == Str(val) then Pass else Fail(AssertionFailed(val, expected)), q.history)
      else Exec(Pass, h1)
  }

  /** `performAssert`'s switch, walked case by case after the element wait;
      the assertion it makes is the one `AssertSpec` describes. */
  method PerformAssert(w: World, h: seq<Call>, el: ElementDef, assertType: string, expected: Value) returns (e: Exec)
    ensures e == AssertSpec(w, h, el, assertType, expected)
  {
    var loc := el.locator;
    var e1 := WaitForElement(w, h, loc);
    if e1.outcome.Fail? {
      return e1;
    }
    var h1 := e1.history;
    if assertType == "visible" {
      e := Issue(w, h1, ExpectVisible(loc));
    } else if assertType == "hidden" {
      e := Issue(w, h1, ExpectHidden(loc));
    } else if assertType == "text" {
      e := Issue(w, h1, ExpectText(loc, expected));
    } else if assertType == "contains" {
      var q := Issue(w, h1, AskInnerText(loc));
      if q.outcome.Fail? {
        return q;
      }
      var one := w.innerText(h1, loc);
      if expected.Str? && IsSubstring(expected.s, one) {
        e := Exec(Pass, q.history);
      } else {
        e := Exec(Fail(AssertionFailed(one, expected)), q.history);
      }
    } else if assertType == "arrayContains" {
      e := PollArrayContains(w, h1, loc, expected);
    } else if assertType == "value" {
      var q := Issue(w, h1, AskInputValue(loc));
      if q.outcome.Fail? {
        return q;
      }
      var val := w.inputValue(h1, loc);
      if expected == Str(val) {
        e := Exec(Pass, q.history);
      } else {
        e := Exec(Fail(AssertionFailed(val, expected)), q.history);
      }
    } else {
      e := Exec(Pass, h1);
    }
  }

  /** A "contains" assertion whose text query succeeds passes exactly when the
      element's text contains the expected string. */
  lemma ContainsMeansSubstring(w: World, h: seq<Call>, el: ElementDef, expected: Value)
    requires !w.fails(h, WaitVisible(el.locator)) && !w.fails(h + [WaitVisible(el.locator)], AskInnerText(el.locator))
    ensures AssertSpec(w, h, el, "contains", expected).outcome == Pass
        <==> expected.Str? && IsSubstring(expected.s, w.innerText(h + [WaitVisible(el.locator)], el.locator))
  {
  }

  /** A "value" assertion whose query succeeds passes exactly when the input
      holds the expected string; a non-string expected value always fails. */
  lemma ValueMeansEqual(w: World, h: seq<Call>, el: ElementDef, expected: Value)
    requires !w.fails(h, WaitVisible(el.locator)) && !w.fails(h + [WaitVisible(el.locator)], AskInputValue(el.locator))
    ensures AssertSpec(w, h, el, "value", expected).outcome == Pass
        <==> expected == Str(w.inputValue(h + [WaitVisible(el.locator)], el.locator))
  {
  }

  /** An unknown assertion type only waits for the element. */
  lemma UnknownAssertOnlyWaits(w: World, h: seq<Call>, el: ElementDef, assertType: string, expected: Value)
    requires assertType !in {"visible", "hidden", "text", "contains", "arrayContains", "value"}
    ensures AssertSpec(w, h, el, assertType, expected) == WaitForElement(w, h, el.locator)
  {
  }
}
