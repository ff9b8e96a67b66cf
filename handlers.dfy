/** The special-purpose action handlers of framework/utils/metaEngine.js:
    toggles, checkboxes, autocomplete and select inputs, the multi-select that
    creates missing options, and the paginated search for a job title. Each is
    a function of the page's behaviour and the history before it; the two
    handlers that loop in the source are also written as loops and proved
    equal to their definitions. */
module Handlers {
  import opened Wrappers
  import opened Js
  import opened Driver
  import opened Errors
  import opened Defs
  import opened EngineCore

  /** A page on which no call ever fails. */
  ghost predicate NeverFails(w: World)
  {
    forall h, c :: !w.fails(h, c)
  }

  // ---------------------------------------------------------------------
  // handleToggleState
  // ---------------------------------------------------------------------

  predicate WantsOn(d: string)
  {
    d == "yes" || d == "private" || d == "on" || d == "true"
  }

  predicate WantsOff(d: string)
  {
    d == "no" || d == "public" || d == "off" || d == "false"
  }

  /** The label expected after a click: the "on" label when on was asked for,
      the "off" label otherwise (also for an unrecognised value). */
  function ToggleLabel(el: ElementDef, d: string): string
  {
    if WantsOn(d) then el.onLocator else el.offLocator
  }

  function ToggleState(w: World, h: seq<Call>, el: ElementDef, desired: Value): Exec
  {
    if !desired.Str? then Exec(Fail(NotAString("toLowerCase")), h)
    else
      var d := Lower(desired.s);
      var e1 := WaitForElement(w, h, el.locator);
      if e1.outcome.Fail? then e1
      else
        var isOn := w.visible(e1.history, el.onLocator);
        var h2 := e1.history + [AskVisible(el.onLocator)];
        var isOff := w.visible(h2, el.offLocator);
        var h3 := h2 + [AskVisible(el.offLocator)];
        if (WantsOn(d) && isOn) || (WantsOff(d) && isOff) then Exec(Pass, h3)
        else
          var e4 := Issue(w, h3, Click(el.locator));
          if e4.outcome.Fail? then e4 else Issue(w, e4.history, ExpectVisible(ToggleLabel(el, d)))
  }

  /** A toggle already showing the asked-for label is left alone: no click. */
  lemma ToggleAlreadySet(w: World, h: seq<Call>, el: ElementDef, desired: Value)
    requires desired.Str? && !w.fails(h, WaitVisible(el.locator))
    requires var d := Lower(desired.s);
             (WantsOn(d) && w.visible(h + [WaitVisible(el.locator)], el.onLocator))
             || (WantsOff(d) && w.visible(h + [WaitVisible(el.locator), AskVisible(el.onLocator)], el.offLocator))
    ensures ToggleState(w, h, el, desired)
         == Exec(Pass, h + [WaitVisible(el.locator), AskVisible(el.onLocator), AskVisible(el.offLocator)])
  {
    assert h + [WaitVisible(el.locator)] + [AskVisible(el.onLocator)] == h + [WaitVisible(el.locator), AskVisible(el.onLocator)];
    assert h + [WaitVisible(el.locator), AskVisible(el.onLocator)] + [AskVisible(el.offLocator)]
        == h + [WaitVisible(el.locator), AskVisible(el.onLocator), AskVisible(el.offLocator)];
  }

  /** The toggle is clicked at most once, and it passes after a click only when
      the expected label became visible. */
  lemma ToggleClicksOnce(w: World, h: seq<Call>, el: ElementDef, desired: Value)
    ensures var e := ToggleState(w, h, el, desired);
            Extends(h, e.history) && Clicks(e.history) <= Clicks(h) + 1
    ensures var e := ToggleState(w, h, el, desired);
            e.outcome == Pass && Clicks(e.history) > Clicks(h) ==>
              e.history[|e.history| - 1] == ExpectVisible(ToggleLabel(el, Lower(desired.s)))
              && !w.fails(e.history[..|e.history| - 1], ExpectVisible(ToggleLabel(el, Lower(desired.s))))
  {
    if desired.Str? && !w.fails(h, WaitVisible(el.locator)) {
      var d := Lower(desired.s);
      var looks := [WaitVisible(el.locator), AskVisible(el.onLocator), AskVisible(el.offLocator)];
      ClicksNone(looks);
      if (WantsOn(d) && w.visible(h + [WaitVisible(el.locator)], el.onLocator))
         || (WantsOff(d) && w.visible(h + [WaitVisible(el.locator), AskVisible(el.onLocator)], el.offLocator)) {
        ToggleAlreadySet(w, h, el, desired);
        LooksThenTail(h, looks, []);
        assert h + looks + [] == h + looks;
      } else {
        var h3 := h + looks;
        var want := ExpectVisible(ToggleLabel(el, d));
        ToggleClicksWhenUnset(w, h, el, desired);
        OneClick(Click(el.locator), want);
        if w.fails(h3, Click(el.locator)) {
          LooksThenTail(h, looks, [Click(el.locator)]);
        } else {
          LooksThenTail(h, looks, [Click(el.locator), want]);
          assert (h3 + [Click(el.locator), want])[..|h3| + 1] == h3 + [Click(el.locator)];
        }
      }
    } else {
      ExtendsAppend(h, []);
      assert h + [] == h;
      ExtendsAppend(h, [WaitVisible(el.locator)]);
      ClicksAppend(h, [WaitVisible(el.locator)]);
    }
  }

  /** A click alone, and a click followed by an expectation, are one click each. */
  lemma OneClick(c: Call, x: Call)
    requires c.Click? && x.ExpectVisible?
    ensures Clicks([c]) == 1 && Clicks([c, x]) == 1
  {
    assert [c][1..] == [] && [c, x][1..] == [x] && [x][1..] == [];
  }

  /** Looks that click nothing followed by `tail` extend the history and add
      the clicks of `tail` only. */
  lemma LooksThenTail(h: seq<Call>, looks: seq<Call>, tail: seq<Call>)
    requires Clicks(looks) == 0
    ensures Extends(h, h + looks + tail) && Clicks(h + looks + tail) == Clicks(h) + Clicks(tail)
  {
    ClicksAppend(h, looks);
    ClicksAppend(h + looks, tail);
    assert h + looks + tail == h + (looks + tail);
    ExtendsAppend(h, looks + tail);
  }

  /** A toggle not showing the asked-for label is clicked exactly once, right
      after the two looks; when the click passes, the label of the asked-for
      state is expected next, and the step passes exactly when it shows. */
  lemma ToggleClicksWhenUnset(w: World, h: seq<Call>, el: ElementDef, desired: Value)
    requires desired.Str? && !w.fails(h, WaitVisible(el.locator))
    requires var d := Lower(desired.s);
             !(WantsOn(d) && w.visible(h + [WaitVisible(el.locator)], el.onLocator))
             && !(WantsOff(d) && w.visible(h + [WaitVisible(el.locator), AskVisible(el.onLocator)], el.offLocator))
    ensures var h3 := h + [WaitVisible(el.locator), AskVisible(el.onLocator), AskVisible(el.offLocator)];
            var e := ToggleState(w, h, el, desired);
            |e.history| > |h3| && e.history[..|h3| + 1] == h3 + [Click(el.locator)]
            && (e.outcome.Fail? && e.history == h3 + [Click(el.locator)] <==> w.fails(h3, Click(el.locator)))
    ensures var h3 := h + [WaitVisible(el.locator), AskVisible(el.onLocator), AskVisible(el.offLocator)];
            var want := ToggleLabel(el, Lower(desired.s));
            var e := ToggleState(w, h, el, desired);
            !w.fails(h3, Click(el.locator)) ==>
              e.history == h3 + [Click(el.locator), ExpectVisible(want)]
              && (e.outcome == Pass <==> !w.fails(h3 + [Click(el.locator)], ExpectVisible(want)))
  {
    var h3 := h + [WaitVisible(el.locator), AskVisible(el.onLocator), AskVisible(el.offLocator)];
    var want := ToggleLabel(el, Lower(desired.s));
    assert h + [WaitVisible(el.locator)] + [AskVisible(el.onLocator)] == h + [WaitVisible(el.locator), AskVisible(el.onLocator)];
    assert h + [WaitVisible(el.locator), AskVisible(el.onLocator)] + [AskVisible(el.offLocator)] == h3;
    assert (h3 + [Click(el.locator)] + [ExpectVisible(want)])[..|h3| + 1] == h3 + [Click(el.locator)];
    assert h3 + [Click(el.locator)] + [ExpectVisible(want)] == h3 + [Click(el.locator), ExpectVisible(want)];
  }

  // ---------------------------------------------------------------------
  // handleCheckbox
  // ---------------------------------------------------------------------

  function SetCheckbox(w: World, h: seq<Call>, el: ElementDef, desired: Value): Exec
  {
    if !desired.Str? then Exec(Fail(NotAString("toLowerCase")), h)
    else
      var d := Trim(Lower(desired.s));
      var box := el.locator;
      var e1 := WaitForElement(w, h, box);
      if e1.outcome.Fail? then e1
      else
        var q := Issue(w, e1.history, AskChecked(box));
        if q.outcome.Fail? then q
        else
          var isChecked := w.checked(e1.history, box);
          if d == "check" then
            var e3 := if !isChecked then Issue(w, q.history, Check(box)) else Exec(Pass, q.history);
            if e3.outcome.Fail? then e3 else Issue(w, e3.history, ExpectChecked(box))
          else if d == "uncheck" then
            var e3 := if isChecked then Issue(w, q.history, Uncheck(box)) else Exec(Pass, q.history);
            if e3.outcome.Fail? then e3 else Issue(w, e3.history, ExpectNotChecked(box))
          else Exec(Fail(InvalidCheckboxAction(d)), q.history)
  }

  /** Only "check" and "uncheck" (in any case, with surrounding whitespace) are
      accepted; anything else fails, after the wait and the state query,
      without touching the box. */
  lemma CheckboxRejectsOtherValues(w: World, h: seq<Call>, el: ElementDef, s: string)
    requires Trim(Lower(s)) != "check" && Trim(Lower(s)) != "uncheck"
    requires !w.fails(h, WaitVisible(el.locator)) && !w.fails(h + [WaitVisible(el.locator)], AskChecked(el.locator))
    ensures SetCheckbox(w, h, el, Str(s))
         == Exec(Fail(InvalidCheckboxAction(Trim(Lower(s)))), h + [WaitVisible(el.locator), AskChecked(el.locator)])
  {
    assert h + [WaitVisible(el.locator)] + [AskChecked(el.locator)] == h + [WaitVisible(el.locator), AskChecked(el.locator)];
  }

  /** Checking a checked box (or unchecking an unchecked one) only verifies the
      state; on a page where nothing fails it then passes. */
  lemma CheckboxIdempotent(w: World, h: seq<Call>, el: ElementDef, s: string)
    requires NeverFails(w)
    requires var d := Trim(Lower(s)); var h1 := h + [WaitVisible(el.locator)];
             (d == "check" && w.checked(h1, el.locator)) || (d == "uncheck" && !w.checked(h1, el.locator))
    ensures SetCheckbox(w, h, el, Str(s)).outcome == Pass
    ensures SetCheckbox(w, h, el, Str(s)).history
         == h + [WaitVisible(el.locator), AskChecked(el.locator),
                 if Trim(Lower(s)) == "check" then ExpectChecked(el.locator) else ExpectNotChecked(el.locator)]
  {
    var l := el.locator;
    assert !w.fails(h, WaitVisible(l)) && !w.fails(h + [WaitVisible(l)], AskChecked(l));
    var last := if Trim(Lower(s)) == "check" then ExpectChecked(l) else ExpectNotChecked(l);
    assert !w.fails(h + [WaitVisible(l)] + [AskChecked(l)], last);
    assert h + [WaitVisible(l)] + [AskChecked(l)] + [last] == h + [WaitVisible(l), AskChecked(l), last];
  }

  /** A passing checkbox step ends with the expectation of the asked-for
      state, which held. */
  lemma CheckboxPassMeansState(w: World, h: seq<Call>, el: ElementDef, s: string)
    requires SetCheckbox(w, h, el, Str(s)).outcome == Pass
    ensures var e := SetCheckbox(w, h, el, Str(s));
            var last := if Trim(Lower(s)) == "check" then ExpectChecked(el.locator) else ExpectNotChecked(el.locator);
            |e.history| > 0 && e.history[|e.history| - 1] == last && !w.fails(e.history[..|e.history| - 1], last)
  {
    var e := SetCheckbox(w, h, el, Str(s));
    assert e.history[..|e.history| - 1] + [e.history[|e.history| - 1]] == e.history;
  }

  // ---------------------------------------------------------------------
  // handleAutocomplete
  // ---------------------------------------------------------------------

  /** `items.map((t) => t.trim())`, one text at a time. */
  function TrimAll(items: seq<string>): (r: seq<string>)
    ensures |r| == |items|
    ensures forall i :: 0 <= i < |items| ==> r[i] == Trim(items[i])
  {
    if items == [] then [] else [Trim(items[0])] + TrimAll(items[1..])
  }

  /** `cleaned.find(i => i.toLowerCase() === value.toLowerCase())`. */
  function FirstExact(items: seq<string>, v: string): (r: Option<string>)
    ensures r.Some? ==> r.value in items && Lower(r.value) == Lower(v)
    ensures r.None? ==> forall i :: 0 <= i < |items| ==> Lower(items[i]) != Lower(v)
  {
    if items == [] then None
    else if Lower(items[0]) == Lower(v) then Some(items[0])
    else FirstExact(items[1..], v)
  }

  /** `find` returns the first match: every option before the one found
      differs from the value, ignoring case. */
  lemma {:induction false} FirstExactIsFirst(items: seq<string>, v: string) returns (i: nat)
    requires FirstExact(items, v).Some?
    ensures i < |items| && items[i] == FirstExact(items, v).value
    ensures forall j :: 0 <= j < i ==> Lower(items[j]) != Lower(v)
  {
    if Lower(items[0]) == Lower(v) {
      i := 0;
    } else {
      var k := FirstExactIsFirst(items[1..], v);
      i := k + 1;
      assert forall j :: 1 <= j < i ==> items[j] == items[1..][j - 1];
    }
  }

  /** `scrollIntoViewIfNeeded` then `click({ force: true })` on the first match. */
  function ClickOption(w: World, h: seq<Call>, t: Target): (e: Exec)
    ensures e.outcome == Pass ==> e.history == h + [ScrollIntoView(t), ClickFirst(t, true)]
  {
    var e1 := Issue(w, h, ScrollIntoView(t));
    if e1.outcome.Fail? then e1
    else
      var e2 := Issue(w, e1.history, ClickFirst(t, true));
      assert e2.history == h + [ScrollIntoView(t), ClickFirst(t, true)];
      e2
  }

  /** The fallback: the first option when there is any, then a short pause. */
  function FirstOptionFallback(w: World, h: seq<Call>, dropdown: string): Exec
  {
    var total := w.count(h, Selector(dropdown));
    var h1 := h + [AskCount(Selector(dropdown))];
    if total > 0 then
      var e := ClickOption(w, h1, Selector(dropdown));
      if e.outcome.Fail? then e else Exec(Pass, Sleep(e.history, 300))
    else Exec(Pass, Sleep(h1, 300))
  }

  /** The choice among the options once their texts are known: an option whose
      trimmed text equals the value up to case, if one is offered, otherwise
      the first option. */
  function ChooseOption(w: World, h: seq<Call>, dropdown: string, cleaned: seq<string>, value: Value): Exec
  {
    if cleaned != [] && !value.Str? then Exec(Fail(NotAString("toLowerCase")), h)
    else
      var m := if value.Str? then FirstExact(cleaned, value.s) else None;
      if m.Some? && m.value != "" then
        var t := Filtered(dropdown, StrictText(EscapeRegex(m.value)));
        var n := w.count(h, t);
        var h1 := h + [AskCount(t)];
        if n > 0 then
          var e := ClickOption(w, h1, t);
          if e.outcome.Fail? then e else Exec(Pass, Sleep(e.history, 300))
        else FirstOptionFallback(w, h1, dropdown)
      else FirstOptionFallback(w, h, dropdown)
  }

  function Autocomplete(w: World, h: seq<Call>, el: ElementDef, value: Value): Exec
  {
    var dropdown := el.dropdownLocator;
    var e1 := WaitForElement(w, Sleep(h, 1000), el.locator);
    if e1.outcome.Fail? then e1
    else
      var e2 := Issue(w, e1.history, PressSequentially(el.locator, value));
      if e2.outcome.Fail? then e2
      else
        var e3 := Issue(w, e2.history, WaitFirstVisible(dropdown));
        if e3.outcome.Fail? then e3
        else
          var items := w.allInnerTexts(e3.history, dropdown);
          ChooseOption(w, e3.history + [AskAllInnerTexts(dropdown)], dropdown, TrimAll(items), value)
  }

  /** On a page where nothing fails: an exactly matching option that the strict
      filter finds is the one clicked. */
  lemma AutocompletePrefersExact(w: World, h: seq<Call>, dropdown: string, cleaned: seq<string>, v: string)
    requires NeverFails(w)
    requires FirstExact(cleaned, v).Some? && FirstExact(cleaned, v).value != ""
    requires w.count(h, Filtered(dropdown, StrictText(EscapeRegex(FirstExact(cleaned, v).value)))) > 0
    ensures var t := Filtered(dropdown, StrictText(EscapeRegex(FirstExact(cleaned, v).value)));
            ChooseOption(w, h, dropdown, cleaned, Str(v))
              == Exec(Pass, h + [AskCount(t), ScrollIntoView(t), ClickFirst(t, true), Pause(300)])
  {
    var t := Filtered(dropdown, StrictText(EscapeRegex(FirstExact(cleaned, v).value)));
    assert !w.fails(h + [AskCount(t)], ScrollIntoView(t));
    assert !w.fails(h + [AskCount(t)] + [ScrollIntoView(t)], ClickFirst(t, true));
    assert h + [AskCount(t)] + [ScrollIntoView(t), ClickFirst(t, true)] + [Pause(300)]
        == h + [AskCount(t), ScrollIntoView(t), ClickFirst(t, true), Pause(300)];
  }

  /** On a page where nothing fails: without an exact match the first option,
      if there is one, is clicked. */
  lemma AutocompleteFallsBackToFirst(w: World, h: seq<Call>, dropdown: string, cleaned: seq<string>, v: string)
    requires NeverFails(w)
    requires FirstExact(cleaned, v).None?
    ensures var t := Selector(dropdown);
            ChooseOption(w, h, dropdown, cleaned, Str(v))
              == if w.count(h, t) > 0 then Exec(Pass, h + [AskCount(t), ScrollIntoView(t), ClickFirst(t, true), Pause(300)])
                 else Exec(Pass, h + [AskCount(t), Pause(300)])
  {
    var t := Selector(dropdown);
    assert !w.fails(h + [AskCount(t)], ScrollIntoView(t));
    assert !w.fails(h + [AskCount(t)] + [ScrollIntoView(t)], ClickFirst(t, true));
    assert h + [AskCount(t)] + [ScrollIntoView(t), ClickFirst(t, true)] + [Pause(300)]
        == h + [AskCount(t), ScrollIntoView(t), ClickFirst(t, true), Pause(300)];
    assert h + [AskCount(t)] + [Pause(300)] == h + [AskCount(t), Pause(300)];
  }

  // ---------------------------------------------------------------------
  // handleSelect
  // ---------------------------------------------------------------------

  /** The option locator `text=${value}`. */
  function OptionSelector(value: Value): string
  {
    "text=" + ToStr(value)
  }

  function HandleSelect(w: World, h: seq<Call>, sel: string, value: Value): Exec
  {
    var e1 := WaitForElement(w, h, sel);
    if e1.outcome.Fail? then e1
    else
      var e2 := Issue(w, e1.history, Click(sel));
      if e2.outcome.Fail? then e2
      else
        var h3 := e2.history + [Fill(sel, value)];    // a failing fill is ignored
        var opt := OptionSelector(value);
        var e4 := WaitForElement(w, h3, opt);
        if e4.outcome.Fail? then e4 else Issue(w, e4.history, ClickFirst(Selector(opt), false))
  }

  /** A select passes exactly when the wait, the click, the wait for the option
      and the click on it pass; whether typing the value succeeded does not
      matter. A passing select ends by clicking the option. */
  lemma SelectIgnoresFill(w: World, h: seq<Call>, sel: string, value: Value)
    ensures var opt := OptionSelector(value);
            var h1 := h + [WaitVisible(sel)];
            var h3 := h1 + [Click(sel), Fill(sel, value)];
            var h4 := h3 + [WaitVisible(opt)];
            var e := HandleSelect(w, h, sel, value);
            (e.outcome == Pass <==> !w.fails(h, WaitVisible(sel)) && !w.fails(h1, Click(sel))
                                    && !w.fails(h3, WaitVisible(opt)) && !w.fails(h4, ClickFirst(Selector(opt), false)))
            && (e.outcome == Pass ==> e.history == h4 + [ClickFirst(Selector(opt), false)])
  {
    var h1 := h + [WaitVisible(sel)];
    assert h1 + [Click(sel)] + [Fill(sel, value)] == h1 + [Click(sel), Fill(sel, value)];
  }

  // ---------------------------------------------------------------------
  // handleMultiSelectCreate
  // ---------------------------------------------------------------------

  /** What `for (const skill of skills)` visits: an array's items, a string's
      characters; anything else is not iterable. */
  function SkillsOf(v: Value): (r: Option<seq<Value>>)
    ensures v.Arr? ==> r == Some(v.items)
    ensures v.Str? ==> r.Some? && |r.value| == |v.s| && forall i :: 0 <= i < |v.s| ==> r.value[i] == Str([v.s[i]])
    ensures !v.Arr? && !v.Str? ==> r.None?
  {
    if v.Arr? then Some(v.items)
    else if v.Str? then Some(Chars(v.s))
    else None
  }

  /** A string's characters, each as a one-character string. */
  function Chars(s: string): (r: seq<Value>)
    ensures |r| == |s| && forall i :: 0 <= i < |s| ==> r[i] == Str([s[i]])
  {
    if s == [] then [] else [Str([s[0]])] + Chars(s[1..])
  }

  /** The offered options, trimmed and lower-cased. */
  function OptionTexts(options: seq<string>): (r: seq<string>)
    ensures |r| == |options|
    ensures forall i :: 0 <= i < |options| ==> r[i] == Lower(Trim(options[i]))
  {
    if options == [] then [] else [Lower(Trim(options[0]))] + OptionTexts(options[1..])
  }

  /** The option clicked for a skill: the exact one when offered, the
      "Create ..." one otherwise. */
  function SkillOption(dropdown: string, options: seq<string>, skill: string): Target
  {
    Filtered(dropdown, if Lower(skill) in OptionTexts(options) then ExactOption(skill) else CreateOption(skill))
  }

  function SelectSkill(w: World, h: seq<Call>, el: ElementDef, skill: Value): Exec
  {
    var dropdown := el.dropdownLocator;
    var e1 := WaitForElement(w, h, el.locator);
    if e1.outcome.Fail? then e1
    else
      var e2 := Issue(w, e1.history, PressSequentially(el.locator, skill));
      if e2.outcome.Fail? then e2
      else
        var e3 := Issue(w, e2.history, WaitFirstVisible(dropdown));
        if e3.outcome.Fail? then e3
        else
          var options := w.allInnerTexts(e3.history, dropdown);
          var h4 := e3.history + [AskAllInnerTexts(dropdown)];
          if !skill.Str? then Exec(Fail(NotAString("toLowerCase")), h4)
          else
            var e5 := Issue(w, h4, ClickFirst(SkillOption(dropdown, options, skill.s), false));
            if e5.outcome.Fail? then e5 else Exec(Pass, Sleep(e5.history, 500))
  }

  /** The skills one after another, stopping at the first failure. */
  function SelectSkills(w: World, h: seq<Call>, el: ElementDef, skills: seq<Value>): Exec
    decreases |skills|
  {
    if skills == [] then Exec(Pass, h)
    else
      var e := SelectSkill(w, h, el, skills[0]);
      if e.outcome.Fail? then e else SelectSkills(w, e.history, el, skills[1..])
  }

  function MultiSelectCreate(w: World, h: seq<Call>, el: ElementDef, data: Value): Exec
  {
    match SkillsOf(data)
    case None => Exec(Fail(NotIterable(data)), h)
    case Some(skills) => SelectSkills(w, h, el, skills)
  }

  method RunMultiSelectCreate(w: World, h: seq<Call>, el: ElementDef, data: Value) returns (e: Exec)
    ensures e == MultiSelectCreate(w, h, el, data)
  {
    var skills := SkillsOf(data);
    if skills.None? {
      return Exec(Fail(NotIterable(data)), h);
    }
    var cur := h;
    var i := 0;
    while i < |skills.value|
      invariant 0 <= i <= |skills.value|
      invariant SelectSkills(w, cur, el, skills.value[i..]) == SelectSkills(w, h, el, skills.value)
    {
      assert skills.value[i..][1..] == skills.value[i + 1..];
      var one := SelectSkill(w, cur, el, skills.value[i]);
      if one.outcome.Fail? {
        return one;
      }
      cur := one.history;
      i := i + 1;
    }
    assert skills.value[i..] == [];
    e := Exec(Pass, cur);
  }

  /** One skill: when it passes, exactly one option was clicked, the exact one
      if the trimmed, lower-cased options contain the lower-cased skill and the
      "Create" one otherwise. */
  lemma SelectSkillClicksOneOption(w: World, h: seq<Call>, el: ElementDef, skill: Value)
    ensures var e := SelectSkill(w, h, el, skill);
            Extends(h, e.history) && (e.outcome == Pass ==> Clicks(e.history) == Clicks(h) + 1)
    ensures var e := SelectSkill(w, h, el, skill);
            e.outcome == Pass ==>
              skill.Str? && |e.history| >= 2
              && var options := w.allInnerTexts(e.history[..|e.history| - 3], el.dropdownLocator);
                 e.history[|e.history| - 2] == ClickFirst(SkillOption(el.dropdownLocator, options, skill.s), false)
  {
    ExtendsPrefixOfFailure(w, h, el, skill);
    if SelectSkill(w, h, el, skill).outcome == Pass {
      SelectSkillPassClicks(w, h, el, skill);
      SelectSkillPassOption(w, h, el, skill);
    }
  }

  /** A passing skill adds one click. */
  lemma SelectSkillPassClicks(w: World, h: seq<Call>, el: ElementDef, skill: Value)
    requires SelectSkill(w, h, el, skill).outcome == Pass
    ensures Clicks(SelectSkill(w, h, el, skill).history) == Clicks(h) + 1
  {
    var dropdown := el.dropdownLocator;
    var h3 := h + [WaitVisible(el.locator), PressSequentially(el.locator, skill), WaitFirstVisible(dropdown)];
    var looks := [WaitVisible(el.locator), PressSequentially(el.locator, skill), WaitFirstVisible(dropdown)];
    SelectSkillPassHistory(w, h, el, skill);
    var c := ClickFirst(SkillOption(dropdown, w.allInnerTexts(h3, dropdown), skill.s), false);
    ClicksNone(looks);
    OneClickAfterLooks(h, h3, c, looks, AskAllInnerTexts(dropdown), Pause(500));
  }

  /** The option a passing skill clicked: second to last, chosen from the
      options read three calls before the end. */
  lemma SelectSkillPassOption(w: World, h: seq<Call>, el: ElementDef, skill: Value)
    requires SelectSkill(w, h, el, skill).outcome == Pass
    ensures var e := SelectSkill(w, h, el, skill);
            skill.Str? && |e.history| >= 3
            && e.history[|e.history| - 2]
               == ClickFirst(SkillOption(el.dropdownLocator, w.allInnerTexts(e.history[..|e.history| - 3], el.dropdownLocator), skill.s), false)
  {
    var dropdown := el.dropdownLocator;
    var h3 := h + [WaitVisible(el.locator), PressSequentially(el.locator, skill), WaitFirstVisible(dropdown)];
    SelectSkillPassHistory(w, h, el, skill);
    var c := ClickFirst(SkillOption(dropdown, w.allInnerTexts(h3, dropdown), skill.s), false);
    var all := h3 + [AskAllInnerTexts(dropdown), c, Pause(500)];
    assert all[..|all| - 3] == h3;
  }

  /** Calls that click nothing, a look, one click and a pause add one click. */
  lemma OneClickAfterLooks(h: seq<Call>, h3: seq<Call>, c: Call, looks: seq<Call>, look: Call, pause: Call)
    requires c.ClickFirst? && Clicks(looks) == 0 && !look.Click? && !look.ClickFirst? && !pause.Click? && !pause.ClickFirst?
    requires h3 == h + looks
    ensures var all := h3 + [look, c, pause];
            Extends(h, all) && Clicks(all) == Clicks(h) + 1 && all[..|all| - 3] == h3 && all[|all| - 2] == c
  {
    var tail := [look, c, pause];
    ClicksAppend(h, looks);
    ClicksAppend(h3, tail);
    assert [pause][1..] == [] && [c, pause][1..] == [pause] && tail[1..] == [c, pause];
    assert Clicks([pause]) == 0;
    assert Clicks([c, pause]) == 1;
    assert Clicks(tail) == 1;
    assert h3 + tail == h + (looks + tail);
    ExtendsAppend(h, looks + tail);
  }

  /** The calls of a passing skill: wait, type, wait for the options, read
      them, click the chosen one, pause. */
  lemma SelectSkillPassHistory(w: World, h: seq<Call>, el: ElementDef, skill: Value)
    requires SelectSkill(w, h, el, skill).outcome == Pass
    ensures var dropdown := el.dropdownLocator;
            var h3 := h + [WaitVisible(el.locator), PressSequentially(el.locator, skill), WaitFirstVisible(dropdown)];
            skill.Str?
            && SelectSkill(w, h, el, skill).history
               == h3 + [AskAllInnerTexts(dropdown),
                        ClickFirst(SkillOption(dropdown, w.allInnerTexts(h3, dropdown), skill.s), false), Pause(500)]
  {
    var dropdown := el.dropdownLocator;
    assert h + [WaitVisible(el.locator)] + [PressSequentially(el.locator, skill)] + [WaitFirstVisible(dropdown)]
        == h + [WaitVisible(el.locator), PressSequentially(el.locator, skill), WaitFirstVisible(dropdown)];
  }

  lemma ExtendsPrefixOfFailure(w: World, h: seq<Call>, el: ElementDef, skill: Value)
    ensures Extends(h, SelectSkill(w, h, el, skill).history)
  {
    var dropdown := el.dropdownLocator;
    var h1 := h + [WaitVisible(el.locator)];
    var h2 := h1 + [PressSequentially(el.locator, skill)];
    var h3 := h2 + [WaitFirstVisible(dropdown)];
    var h4 := h3 + [AskAllInnerTexts(dropdown)];
    ExtendsAppend(h, [WaitVisible(el.locator)]);
    ExtendsAppend(h1, [PressSequentially(el.locator, skill)]);
    ExtendsAppend(h2, [WaitFirstVisible(dropdown)]);
    ExtendsAppend(h3, [AskAllInnerTexts(dropdown)]);
    ExtendsTrans(h, h1, h2);
    ExtendsTrans(h, h2, h3);
    ExtendsTrans(h, h3, h4);
    if skill.Str? {
      var c := ClickFirst(SkillOption(dropdown, w.allInnerTexts(h3, dropdown), skill.s), false);
      ExtendsAppend(h4, [c]);
      ExtendsAppend(h4 + [c], [Pause(500)]);
      ExtendsTrans(h, h4, h4 + [c]);
      ExtendsTrans(h, h4 + [c], h4 + [c] + [Pause(500)]);
    }
  }

  /** A passing multi-select clicked exactly one option per skill. */
  lemma {:induction false} SelectSkillsOnePerSkill(w: World, h: seq<Call>, el: ElementDef, skills: seq<Value>)
    ensures var e := SelectSkills(w, h, el, skills);
            Extends(h, e.history) && (e.outcome == Pass ==> Clicks(e.history) == Clicks(h) + |skills|)
    decreases |skills|
  {
    if skills == [] {
      ExtendsAppend(h, []);
      assert h + [] == h;
    } else {
      var e := SelectSkill(w, h, el, skills[0]);
      SelectSkillClicksOneOption(w, h, el, skills[0]);
      if e.outcome.Pass? {
        SelectSkillsOnePerSkill(w, e.history, el, skills[1..]);
        ExtendsTrans(h, e.history, SelectSkills(w, e.history, el, skills[1..]).history);
      }
    }
  }

  // ---------------------------------------------------------------------
  // handleClickPerticularJobTitle
  // ---------------------------------------------------------------------

  /** The job title locator with `${jobId}` replaced by the id. */
  function JobTitleLocator(el: ElementDef, jobId: Value): string
  {
    ReplaceFirst(el.requiredJobTitleLocator, "${jobId}", ToStr(jobId))
  }

  /** `text.match(/\d+/)[0]` from position `i`: the leftmost run of digits. */
  function FirstDigitRunFrom(s: string, i: nat): (r: Option<string>)
    requires i <= |s|
    ensures r.Some? ==> r.value != [] && AllDigits(r.value)
    ensures r.None? ==> forall k :: i <= k < |s| ==> !IsDigit(s[k])
    decreases |s| - i
  {
    if i == |s| then None
    else if IsDigit(s[i]) then Some(s[i..i + DigitsAt(s, i)])
    else FirstDigitRunFrom(s, i + 1)
  }

  /** `parseInt` of a digit string (as an exact integer). */
  function DigitsValue(s: string): nat
    requires AllDigits(s)
  {
    if s == [] then 0 else 10 * DigitsValue(s[..|s| - 1]) + (s[|s| - 1] as int - '0' as int)
  }

  /** Reading back the decimal form of a number gives the number. */
  lemma {:induction false} DigitsValueOfDecimal(n: nat)
    ensures DigitsValue(DecimalString(n)) == n
  {
    if n >= 10 {
      DigitsValueOfDecimal(n / 10);
      var s := DecimalString(n);
      assert s[..|s| - 1] == DecimalString(n / 10);
    }
  }

  /** Pages `i` to `total`: look for the title, click it when visible, else
      move to the next page (except after the last one) and wait a second. */
  function SearchPages(w: World, h: seq<Call>, title: string, next: string, jobId: Value, i: nat, total: nat): Exec
    decreases total + 1 - i
  {
    if i > total then Exec(Fail(JobNotFound(jobId, total)), h)
    else
      var h1 := h + [AskVisible(title)];
      if w.visible(h, title) then Issue(w, h1, Click(title))
      else if i < total then
        var c := Issue(w, h1, Click(next));
        if c.outcome.Fail? then c else SearchPages(w, Sleep(c.history, 1000), title, next, jobId, i + 1, total)
      else SearchPages(w, h1, title, next, jobId, i + 1, total)
  }

  function ClickParticularJobTitle(w: World, h: seq<Call>, el: ElementDef, jobId: Value): Exec
  {
    var q := Issue(w, h, AskInnerText(el.numberOfPages));
    if q.outcome.Fail? then q
    else
      var text := w.innerText(h, el.numberOfPages);
      match FirstDigitRunFrom(text, 0)
      case None => Exec(Fail(NoDigitsInPagination(text)), q.history)
      case Some(run) => SearchPages(w, q.history, JobTitleLocator(el, jobId), el.nextPage, jobId, 1, DigitsValue(run))
  }

  method FindJobTitle(w: World, h: seq<Call>, el: ElementDef, jobId: Value) returns (e: Exec)
    ensures e == ClickParticularJobTitle(w, h, el, jobId)
  {
    var title := JobTitleLocator(el, jobId);
    var q := Issue(w, h, AskInnerText(el.numberOfPages));
    if q.outcome.Fail? {
      return q;
    }
    var text := w.innerText(h, el.numberOfPages);
    var run := FirstDigitRunFrom(text, 0);
    if run.None? {
      return Exec(Fail(NoDigitsInPagination(text)), q.history);
    }
    var total := DigitsValue(run.value);
    var cur := q.history;
    var i := 1;
    while i <= total
      invariant 1 <= i <= total + 1
      invariant SearchPages(w, cur, title, el.nextPage, jobId, i, total)
             == SearchPages(w, q.history, title, el.nextPage, jobId, 1, total)
      decreases total + 1 - i
    {
      var visible := w.visible(cur, title);
      var checked := cur + [AskVisible(title)];
      if visible {
        return Issue(w, checked, Click(title));
      }
      if i < total {
        var c := Issue(w, checked, Click(el.nextPage));
        if c.outcome.Fail? {
          assert SearchPages(w, cur, title, el.nextPage, jobId, i, total) == c;
          return c;
        }
        cur := Sleep(c.history, 1000);
      } else {
        cur := checked;
      }
      i := i + 1;
    }
    e := Exec(Fail(JobNotFound(jobId, total)), cur);
  }

  /** The search only adds to the history, and looks for the title at most
      once per remaining page. */
  lemma {:induction false} SearchPagesBounded(w: World, h: seq<Call>, title: string, next: string, jobId: Value, i: nat, total: nat)
    requires 1 <= i
    ensures var e := SearchPages(w, h, title, next, jobId, i, total);
            Extends(h, e.history)
            && Count(e.history, AskVisible(title)) <= Count(h, AskVisible(title)) + (if i <= total then total + 1 - i else 0)
    decreases total + 1 - i
  {
    var e := SearchPages(w, h, title, next, jobId, i, total);
    if i > total {
      ExtendsAppend(h, []);
      assert h + [] == h;
    } else {
      var h1 := h + [AskVisible(title)];
      CountSame(h, AskVisible(title));
      ExtendsAppend(h, [AskVisible(title)]);
      if w.visible(h, title) {
        CountOther(h1, Click(title), AskVisible(title));
        ExtendsAppend(h1, [Click(title)]);
        ExtendsTrans(h, h1, h1 + [Click(title)]);
      } else if i < total {
        var c := Issue(w, h1, Click(next));
        CountOther(h1, Click(next), AskVisible(title));
        ExtendsAppend(h1, [Click(next)]);
        ExtendsTrans(h, h1, c.history);
        if c.outcome.Pass? {
          var h2 := Sleep(c.history, 1000);
          CountOther(c.history, Pause(1000), AskVisible(title));
          ExtendsAppend(c.history, [Pause(1000)]);
          ExtendsTrans(h, c.history, h2);
          SearchPagesBounded(w, h2, title, next, jobId, i + 1, total);
          ExtendsTrans(h, h2, e.history);
        }
      } else {
        SearchPagesBounded(w, h1, title, next, jobId, i + 1, total);
        ExtendsTrans(h, h1, e.history);
      }
    }
  }

  /** The next-page button is pressed at most once per page but the last of
      those still to search. The source puts no condition on the two locators;
      `title != next` only keeps a click on the title from being counted as a
      click on the next-page button. */
  lemma {:induction false} SearchPagesNextClicks(w: World, h: seq<Call>, title: string, next: string, jobId: Value,
                                                 i: nat, total: nat)
    requires 1 <= i && title != next
    ensures Count(SearchPages(w, h, title, next, jobId, i, total).history, Click(next))
            <= Count(h, Click(next)) + (if i < total then total - i else 0)
    decreases total + 1 - i
  {
    if i <= total {
      var h1 := h + [AskVisible(title)];
      CountOther(h, AskVisible(title), Click(next));
      if w.visible(h, title) {
        CountOther(h1, Click(title), Click(next));
      } else if i < total {
        var c := Issue(w, h1, Click(next));
        CountSame(h1, Click(next));
        if c.outcome.Pass? {
          CountOther(c.history, Pause(1000), Click(next));
          SearchPagesNextClicks(w, Sleep(c.history, 1000), title, next, jobId, i + 1, total);
        }
      } else {
        SearchPagesNextClicks(w, h1, title, next, jobId, i + 1, total);
      }
    }
  }

  /** A passing search ends by clicking the title right after seeing it
      visible. */
  lemma {:induction false} SearchPagesClicksVisibleTitle(w: World, h: seq<Call>, title: string, next: string, jobId: Value,
                                                         i: nat, total: nat)
    requires SearchPages(w, h, title, next, jobId, i, total).outcome == Pass
    ensures var e := SearchPages(w, h, title, next, jobId, i, total);
            |e.history| >= 2 && e.history[|e.history| - 1] == Click(title)
            && e.history[|e.history| - 2] == AskVisible(title) && w.visible(e.history[..|e.history| - 2], title)
    decreases total + 1 - i
  {
    if i <= total {
      if w.visible(h, title) {
        var h1 := h + [AskVisible(title)];
        assert (h1 + [Click(title)])[..|h1| - 1] == h;
      } else if i < total {
        SearchPagesClicksVisibleTitle(w, Sleep(Issue(w, h + [AskVisible(title)], Click(next)).history, 1000), title, next, jobId, i + 1, total);
      }
    }
  }

  /** From position `lo` on, the first check that finds the title visible is
      the last call but one, and the title click after it decides the
      outcome. */
  predicate StopsAtVisible(w: World, lo: nat, e: Exec, title: string)
  {
    forall k :: lo <= k < |e.history| && e.history[k] == AskVisible(title) && w.visible(e.history[..k], title) ==>
      k == |e.history| - 2 && e.outcome == Issue(w, e.history[..k + 1], Click(title)).outcome
  }

  /** A page on which the title was not visible adds no stopping point:
      what holds after that page's calls holds from the page's start. */
  lemma StopsAtVisibleAfterPage(w: World, h: seq<Call>, calls: seq<Call>, e: Exec, title: string, next: string)
    requires calls == [AskVisible(title)] || calls == [AskVisible(title), Click(next)]
             || calls == [AskVisible(title), Click(next), Pause(1000)]
    requires !w.visible(h, title) && Extends(h + calls, e.history) && StopsAtVisible(w, |h + calls|, e, title)
    ensures StopsAtVisible(w, |h|, e, title)
  {
    var h2 := h + calls;
    assert e.history[..|h2|] == h2;
    assert e.history[..|h|] == h by {
      assert h2[..|h|] == h;
    }
    assert forall k :: |h| < k < |h2| ==> e.history[k] == h2[k] == calls[k - |h|];
  }

  /** A visible title is clicked at once, and that click is the outcome. */
  lemma StopsAtVisibleFound(w: World, h: seq<Call>, e: Exec, title: string)
    requires w.visible(h, title) && e == Issue(w, h + [AskVisible(title)], Click(title))
    ensures StopsAtVisible(w, |h|, e, title)
  {
    assert e.history[..|h|] == h && e.history[..|h| + 1] == h + [AskVisible(title)];
  }

  /** The search stops at the first page on which it sees the title: a
      check that finds the title visible is the last but one call, and the
      title click after it decides the outcome. */
  lemma {:induction false} SearchPagesStopsAtVisible(w: World, h: seq<Call>, title: string, next: string, jobId: Value,
                                                     i: nat, total: nat)
    requires 1 <= i
    ensures StopsAtVisible(w, |h|, SearchPages(w, h, title, next, jobId, i, total), title)
    decreases total + 1 - i
  {
    var e := SearchPages(w, h, title, next, jobId, i, total);
    if i <= total {
      var h1 := h + [AskVisible(title)];
      if w.visible(h, title) {
        StopsAtVisibleFound(w, h, e, title);
      } else if i < total {
        var c := Issue(w, h1, Click(next));
        if c.outcome.Pass? {
          var calls := [AskVisible(title), Click(next), Pause(1000)];
          assert Sleep(c.history, 1000) == h + calls;
          SearchPagesBounded(w, h + calls, title, next, jobId, i + 1, total);
          SearchPagesStopsAtVisible(w, h + calls, title, next, jobId, i + 1, total);
          StopsAtVisibleAfterPage(w, h, calls, e, title, next);
        } else {
          StopsAtVisibleAfterPage(w, h, [AskVisible(title), Click(next)], e, title, next);
        }
      } else {
        SearchPagesBounded(w, h1, title, next, jobId, i + 1, total);
        SearchPagesStopsAtVisible(w, h1, title, next, jobId, i + 1, total);
        StopsAtVisibleAfterPage(w, h, [AskVisible(title)], e, title, next);
      }
    }
  }

  /** When the title never shows and nothing fails, every page is checked
      once, the next-page button is pressed between pages, and the search
      reports how many pages it went through. */
  lemma {:induction false} SearchPagesNotFound(w: World, h: seq<Call>, title: string, next: string, jobId: Value, i: nat, total: nat)
    requires 1 <= i <= total + 1
    requires NeverFails(w) && forall hh :: !w.visible(hh, title)
    ensures var e := SearchPages(w, h, title, next, jobId, i, total);
            e.outcome == Fail(JobNotFound(jobId, total))
            && Count(e.history, AskVisible(title)) == Count(h, AskVisible(title)) + (total + 1 - i)
            && Count(e.history, Click(next)) == Count(h, Click(next)) + (if i <= total then total - i else 0)
    decreases total + 1 - i
  {
    if i <= total {
      var h1 := h + [AskVisible(title)];
      CountSame(h, AskVisible(title));
      CountOther(h, AskVisible(title), Click(next));
      assert !w.visible(h, title);
      if i < total {
        assert !w.fails(h1, Click(next));
        var h2 := h1 + [Click(next)] + [Pause(1000)];
        CountOther(h1, Click(next), AskVisible(title));
        CountSame(h1, Click(next));
        CountOther(h1 + [Click(next)], Pause(1000), AskVisible(title));
        CountOther(h1 + [Click(next)], Pause(1000), Click(next));
        SearchPagesNotFound(w, h2, title, next, jobId, i + 1, total);
      } else {
        SearchPagesNotFound(w, h1, title, next, jobId, i + 1, total);
      }
    }
  }
}
