/**
 * The browser as the CRM automator sees it: Selenium's locator strategies, the
 * calls the automator makes, and a scripted stand-in for the live page.
 *
 * The page is a scripted oracle. Each call is answered by a total function of the
 * history of earlier events and of the call itself. That covers stubs that fail N
 * times and then succeed, stubs that always fail one record, and so on. Every call
 * that reaches the page is appended to the trace, tagged with the step of the
 * automator that issued it (the step its error log line names). The
 * BrowserController methods never raise, because the source catches every exception
 * inside them. Reading `driver.current_url` is not wrapped, so that read is the one
 * call whose failure (`Unreachable`) escapes as an exception.
 */
module Browser {
  import opened Wrappers

  /** The strategies of `selenium.webdriver.common.by.By`. */
  datatype By = Id | XPath | LinkText | PartialLinkText | Name | TagName | ClassName | CssSelector

  /** `getattr(By, name)`: `None` where `By` has no such attribute, which raises AttributeError. */
  function ByAttribute(name: string): (r: Option<By>)
    ensures r.Some? <==> name in {"ID", "XPATH", "LINK_TEXT", "PARTIAL_LINK_TEXT", "NAME", "TAG_NAME", "CLASS_NAME", "CSS_SELECTOR"}
    ensures name == "XPATH" ==> r == Some(XPath)
    ensures name == "NAME" ==> r == Some(Name)
  {
    match name
    case "ID" => Some(Id)
    case "XPATH" => Some(XPath)
    case "LINK_TEXT" => Some(LinkText)
    case "PARTIAL_LINK_TEXT" => Some(PartialLinkText)
    case "NAME" => Some(Name)
    case "TAG_NAME" => Some(TagName)
    case "CLASS_NAME" => Some(ClassName)
    case "CSS_SELECTOR" => Some(CssSelector)
    case _ => None
  }

  /** A call that reaches the page. The text of `TypeText` is typed after clearing the field. */
  datatype Call =
    | Navigate(url: string)
    | TypeText(strategy: By, target: Option<string>, text: string)
    | Click(strategy: By, target: Option<string>, waitSeconds: nat)
    | WaitVisible(strategy: By, target: Option<string>, timeoutSeconds: nat)

  /** What `driver.current_url` gives: the address, or an exception. */
  datatype Page = At(url: string) | Unreachable

  /** The step of the automator on whose behalf a call is made. */
  datatype Step =
    | LoginPage | LoginUsername | LoginPassword | LoginButton | LoginCheck
    | CrmModule | BookingList | CrmHome
    | PageCheck | SearchField | SearchButton | ResultRow | InvoiceRow | AddActualNet
    | Field(key: string) | SaveButton

  datatype Event = Acted(step: Step, call: Call, ok: bool) | ReadUrl(step: Step, page: Page)

  /** The scripted page: the answer to each call, given everything that happened before. */
  datatype Oracle = Oracle(act: (seq<Event>, Call) -> bool, page: seq<Event> -> Page)

  /** `tr` is a prefix of `t`: calls are only ever appended. */
  ghost predicate Extends(t: seq<Event>, tr: seq<Event>) {
    |tr| <= |t| && t[..|tr|] == tr
  }

  /** The calls appended to `tr` to reach `t` were all made on behalf of steps in `steps`. */
  ghost predicate Within(t: seq<Event>, tr: seq<Event>, steps: set<Step>) {
    Extends(t, tr) && forall i | |tr| <= i < |t| :: t[i].step in steps
  }

  /** How many events of the trace were made on behalf of `step`. */
  function Count(t: seq<Event>, step: Step): nat {
    if t == [] then 0 else Count(t[..|t| - 1], step) + (if t[|t| - 1].step == step then 1 else 0)
  }

  lemma WithinRefl(tr: seq<Event>, steps: set<Step>)
    ensures Within(tr, tr, steps)
  {
  }

  lemma WithinSnoc(t: seq<Event>, tr: seq<Event>, e: Event, steps: set<Step>)
    requires Within(t, tr, steps) && e.step in steps
    ensures Within(t + [e], tr, steps)
  {
    assert (t + [e])[..|t|] == t;
    assert (t + [e])[..|tr|] == t[..|tr|];
  }

  lemma WithinTrans(t2: seq<Event>, t1: seq<Event>, t0: seq<Event>, s1: set<Step>, s2: set<Step>)
    requires Within(t1, t0, s1) && Within(t2, t1, s2)
    ensures Within(t2, t0, s1 + s2)
  {
    assert t2[..|t0|] == t2[..|t1|][..|t0|];
    forall i | |t0| <= i < |t2| ensures t2[i].step in s1 + s2 {
      if i < |t1| { assert t2[i] == t2[..|t1|][i]; }
    }
  }

  lemma WithinWiden(t: seq<Event>, tr: seq<Event>, s1: set<Step>, s2: set<Step>)
    requires Within(t, tr, s1) && s1 <= s2
    ensures Within(t, tr, s2)
  {
  }

  /** Appending events for other steps leaves the count of `step` unchanged. */
  lemma {:induction false} CountWithin(t: seq<Event>, tr: seq<Event>, steps: set<Step>, step: Step)
    requires Within(t, tr, steps) && step !in steps
    ensures Count(t, step) == Count(tr, step)
    decreases |t|
  {
    if |t| > |tr| {
      var t' := t[..|t| - 1];
      assert t'[..|tr|] == t[..|tr|];
      CountWithin(t', tr, steps, step);
    } else {
      assert t == tr;
    }
  }

  /** The counts of all steps outside `steps` are unchanged. */
  lemma CountsOutside(t: seq<Event>, tr: seq<Event>, steps: set<Step>, others: set<Step>)
    requires Within(t, tr, steps) && others !! steps
    ensures forall s | s in others :: Count(t, s) == Count(tr, s)
  {
    forall s | s in others ensures Count(t, s) == Count(tr, s) {
      CountWithin(t, tr, steps, s);
    }
  }

  lemma CountAppend(t: seq<Event>, e: Event, step: Step)
    ensures Count(t + [e], step) == Count(t, step) + (if e.step == step then 1 else 0)
  {
    assert (t + [e])[..|t|] == t;
  }

  /** One BrowserController action: without a driver it fails before reaching the page. */
  function Perform(live: bool, o: Oracle, tr: seq<Event>, step: Step, c: Call): (r: (bool, seq<Event>))
    ensures !live ==> r == (false, tr)
    ensures live ==> r.1 == tr + [Acted(step, c, r.0)] && r.0 == o.act(tr, c)
  {
    if !live then (false, tr)
    else
      var ok := o.act(tr, c);
      (ok, tr + [Acted(step, c, ok)])
  }

  /** An action on behalf of one of `steps` keeps the trace within `steps`. */
  lemma PerformWithin(live: bool, o: Oracle, t: seq<Event>, tr: seq<Event>, step: Step, c: Call, steps: set<Step>)
    requires Within(t, tr, steps) && step in steps
    ensures Within(Perform(live, o, t, step, c).1, tr, steps)
  {
    if live {
      WithinSnoc(t, tr, Acted(step, c, o.act(t, c)), steps);
    }
  }

  /** `driver.current_url`: with no driver the attribute access itself raises. */
  function ReadCurrentUrl(live: bool, o: Oracle, tr: seq<Event>, step: Step): (r: (Page, seq<Event>))
    ensures !live ==> r == (Unreachable, tr)
    ensures live ==> r.1 == tr + [ReadUrl(step, r.0)] && r.0 == o.page(tr)
  {
    if !live then (Unreachable, tr)
    else
      var p := o.page(tr);
      (p, tr + [ReadUrl(step, p)])
  }

  lemma ReadCurrentUrlWithin(live: bool, o: Oracle, t: seq<Event>, tr: seq<Event>, step: Step, steps: set<Step>)
    requires Within(t, tr, steps) && step in steps
    ensures Within(ReadCurrentUrl(live, o, t, step).1, tr, steps)
  {
    if live {
      WithinSnoc(t, tr, ReadUrl(step, o.page(t)), steps);
    }
  }

  /** The browser session: whether a driver was acquired, the page, and the calls made so far. */
  class BrowserController {
    const live: bool
    const oracle: Oracle
    var trace: seq<Event>

    constructor (live: bool, oracle: Oracle)
      ensures this.live == live && this.oracle == oracle && trace == []
    {
      this.live := live;
      this.oracle := oracle;
      trace := [];
    }

    method NavigateTo(step: Step, url: string) returns (ok: bool)
      modifies this
      ensures (ok, trace) == Perform(live, oracle, old(trace), step, Navigate(url))
    {
      if !live { return false; }
      ok := oracle.act(trace, Navigate(url));
      trace := trace + [Acted(step, Navigate(url), ok)];
    }

    method InputText(step: Step, strategy: By, target: Option<string>, text: string) returns (ok: bool)
      modifies this
      ensures (ok, trace) == Perform(live, oracle, old(trace), step, TypeText(strategy, target, text))
    {
      if !live { return false; }
      ok := oracle.act(trace, TypeText(strategy, target, text));
      trace := trace + [Acted(step, TypeText(strategy, target, text), ok)];
    }

    /** Waits for the element, clicks it (falling back to a script click), then waits `waitSeconds`. */
    method ClickElement(step: Step, strategy: By, target: Option<string>, waitSeconds: nat) returns (ok: bool)
      modifies this
      ensures (ok, trace) == Perform(live, oracle, old(trace), step, Click(strategy, target, waitSeconds))
    {
      if !live { return false; }
      ok := oracle.act(trace, Click(strategy, target, waitSeconds));
      trace := trace + [Acted(step, Click(strategy, target, waitSeconds), ok)];
    }

    /** `wait_for_element`: true when an element was found, false for `None`. */
    method WaitForElement(step: Step, strategy: By, target: Option<string>, timeoutSeconds: nat) returns (found: bool)
      modifies this
      ensures (found, trace) == Perform(live, oracle, old(trace), step, WaitVisible(strategy, target, timeoutSeconds))
    {
      if !live { return false; }
      found := oracle.act(trace, WaitVisible(strategy, target, timeoutSeconds));
      trace := trace + [Acted(step, WaitVisible(strategy, target, timeoutSeconds), found)];
    }

    method CurrentUrl(step: Step) returns (p: Page)
      modifies this
      ensures (p, trace) == ReadCurrentUrl(live, oracle, old(trace), step)
    {
      if !live { return Unreachable; }
      p := oracle.page(trace);
      trace := trace + [ReadUrl(step, p)];
    }
  }
}
