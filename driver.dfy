/** The browser driver as the engine sees it. The engine never inspects a
    locating descriptor: it only issues calls against descriptors and asks
    questions about them. A `World` answers every question, and decides whether
    a call fails, as a function of everything the engine has issued so far
    (the history), which covers a page that changes as it is clicked. Questions
    are recorded in the history too, so the number of checks and polls can be
    read off it. */
module Driver {
  import opened Js

  /** The text filter of a `locator.filter({ hasText })`; its regular-expression
      semantics belong to the driver. */
  datatype TextFilter =
    | ExactOption(text: string)    // ^text$, case-insensitive
    | CreateOption(text: string)   // Create\s*["']?text["']?, case-insensitive
    | StrictText(escaped: string)  // ^\s*escaped\s*$, case-insensitive

  datatype Target = Selector(sel: string) | Filtered(sel: string, filter: TextFilter)

  datatype Call =
    // actions and expectations
    | WaitVisible(sel: string)           // first().waitFor visible, 70 s
    | WaitFirstVisible(sel: string)      // first().waitFor visible, 10 s
    | Click(sel: string)
    | ClickFirst(target: Target, force: bool)
    | ScrollIntoView(target: Target)
    | Fill(sel: string, value: Value)
    | PressSequentially(sel: string, text: Value)
    | SetInputFiles(sel: string, files: seq<string>)
    | Check(sel: string)
    | Uncheck(sel: string)
    | ExpectVisible(sel: string)
    | ExpectHidden(sel: string)
    | ExpectChecked(sel: string)
    | ExpectNotChecked(sel: string)
    | ExpectText(sel: string, expected: Value)
    | Pause(ms: nat)                     // page.waitForTimeout
    // questions
    | AskVisible(sel: string)
    | AskChecked(sel: string)
    | AskInnerText(sel: string)
    | AskAllInnerTexts(sel: string)
    | AskCount(target: Target)
    | AskInputValue(sel: string)
    | AskUrl

  /** What the page answers, given the history of calls before the question. */
  datatype World = World(
    visible: (seq<Call>, string) -> bool,
    checked: (seq<Call>, string) -> bool,
    innerText: (seq<Call>, string) -> string,
    allInnerTexts: (seq<Call>, string) -> seq<string>,
    count: (seq<Call>, Target) -> nat,
    inputValue: (seq<Call>, string) -> string,
    url: seq<Call> -> string,
    fails: (seq<Call>, Call) -> bool)

  /** Number of times `c` occurs in `calls`. */
  function Count(calls: seq<Call>, c: Call): nat
  {
    if calls == [] then 0 else (if calls[0] == c then 1 else 0) + Count(calls[1..], c)
  }

  lemma {:induction false} CountAppend(a: seq<Call>, b: seq<Call>, c: Call)
    ensures Count(a + b, c) == Count(a, c) + Count(b, c)
  {
    if a == [] {
      assert a + b == b;
    } else {
      assert (a + b)[1..] == a[1..] + b;
      CountAppend(a[1..], b, c);
    }
  }

  /** Number of clicks of any kind in `calls`. */
  function Clicks(calls: seq<Call>): nat
  {
    if calls == [] then 0 else (if calls[0].Click? || calls[0].ClickFirst? then 1 else 0) + Clicks(calls[1..])
  }

  lemma {:induction false} ClicksAppend(a: seq<Call>, b: seq<Call>)
    ensures Clicks(a + b) == Clicks(a) + Clicks(b)
  {
    if a == [] {
      assert a + b == b;
    } else {
      assert (a + b)[1..] == a[1..] + b;
      ClicksAppend(a[1..], b);
    }
  }

  /** A history without clicks. */
  lemma {:induction false} ClicksNone(calls: seq<Call>)
    requires forall i :: 0 <= i < |calls| ==> !calls[i].Click? && !calls[i].ClickFirst?
    ensures Clicks(calls) == 0
  {
    if calls != [] {
      ClicksNone(calls[1..]);
    }
  }

  /** A call that is not `c` does not count as one. */
  lemma CountOther(h: seq<Call>, x: Call, c: Call)
    requires x != c
    ensures Count(h + [x], c) == Count(h, c)
  {
    CountAppend(h, [x], c);
    assert [x][1..] == [];
  }

  /** A call that is `c` counts once more. */
  lemma CountSame(h: seq<Call>, c: Call)
    ensures Count(h + [c], c) == Count(h, c) + 1
  {
    CountAppend(h, [c], c);
    assert [c][1..] == [];
  }

  /** The browser page the engine drives: fixed behaviour, changing history. */
  class Page {
    const world: World
    var history: seq<Call>

    constructor (world: World)
      ensures this.world == world && history == []
    {
      this.world := world;
      history := [];
    }
  }
}
