/** The Behave variant's page-object base (`BasePage`): the locator table,
    the verification comparisons, the guarded checkbox and radio actions
    and the element-state queries that answer False instead of raising.
    The browser's answers (texts, titles, URLs, element lookups) are
    inputs. */
module BehavePage {
  import opened Text
  import opened SeleniumDriver

  /** `locator_map`: the locator type names, some of them aliases. */
  const LocatorMap: map<string, By> := map[
    "id" := ById, "name" := ByName, "xpath" := ByXPath, "css" := ByCss,
    "class" := ByClassName, "class_name" := ByClassName,
    "tag" := ByTagName, "tag_name" := ByTagName,
    "link" := ByLinkText, "link_text" := ByLinkText,
    "partial_link" := ByPartialLinkText, "partial_link_text" := ByPartialLinkText]

  /** `get_locator(locator_type, locator_value)`: the type is looked up
      lower-cased, an unknown type meaning XPath; the value is kept as it is. */
  function GetLocator(locatorType: string, locatorValue: string): (l: Locator)
    ensures l.value == locatorValue
    ensures Lower(locatorType) in LocatorMap ==> l.strategy == LocatorMap[Lower(locatorType)]
    ensures Lower(locatorType) !in LocatorMap ==> l.strategy == ByXPath
  {
    var t := Lower(locatorType);
    Locator(if t in LocatorMap then LocatorMap[t] else ByXPath, locatorValue)
  }

  /** The short and the long spelling of a strategy, and any casing of
      either, give the same locator. */
  lemma LocatorAliases(locatorType: string, v: string)
    ensures Lower(locatorType) in {"class", "class_name"} ==> GetLocator(locatorType, v) == Locator(ByClassName, v)
    ensures Lower(locatorType) in {"tag", "tag_name"} ==> GetLocator(locatorType, v) == Locator(ByTagName, v)
    ensures Lower(locatorType) in {"link", "link_text"} ==> GetLocator(locatorType, v) == Locator(ByLinkText, v)
    ensures Lower(locatorType) in {"partial_link", "partial_link_text"} ==> GetLocator(locatorType, v) == Locator(ByPartialLinkText, v)
    ensures GetLocator(Lower(locatorType), v) == GetLocator(locatorType, v)
  {
    LowerIdempotent(locatorType);
  }

  /** Every strategy but XPath is reached only through its own names:
      a type outside the table is XPath, whatever its casing. */
  lemma UnknownTypeIsXPath(locatorType: string, v: string)
    requires Lower(locatorType) !in LocatorMap
    ensures GetLocator(locatorType, v) == Locator(ByXPath, v)
  {}

  /** `verify_text(locator, expected_text, exact_match)` on the element's
      text `actual`: equality by default, containment otherwise. */
  function VerifyText(actual: string, expected: string, exactMatch: bool): (ok: bool)
    ensures exactMatch ==> (ok <==> actual == expected)
    ensures !exactMatch ==> (ok <==> Contains(actual, expected))
  {
    if exactMatch then actual == expected else Contains(actual, expected)
  }

  /** `verify_title(expected_title)` on the page title: equality. */
  function VerifyTitle(title: string, expected: string): (ok: bool)
    ensures ok <==> title == expected
  {
    title == expected
  }

  /** `verify_url(expected_url, contains)` on the current URL: equality,
      or containment when `contains` is set. */
  function VerifyUrl(current: string, expected: string, containsMode: bool): (ok: bool)
    ensures containsMode ==> (ok <==> Contains(current, expected))
    ensures !containsMode ==> (ok <==> current == expected)
  {
    if containsMode then Contains(current, expected) else current == expected
  }

  /** An exact match is also a match by containment, never the reverse
      in general. */
  lemma ExactImpliesContains(actual: string, expected: string)
    ensures VerifyText(actual, expected, true) ==> VerifyText(actual, expected, false)
    ensures VerifyUrl(actual, expected, false) ==> VerifyUrl(actual, expected, true)
    ensures VerifyText("ab", "a", false) && !VerifyText("ab", "a", true)
  {
    ContainsSelf(actual);
    assert OccursAt("ab", "a", 0);
  }

  /** How `find_element` ends for a locator: the element with its
      selected and enabled state, `NoSuchElementException`,
      `TimeoutException`, or another exception with its message. */
  datatype Lookup = Found(selected: bool, enabled: bool) | Missing | TimedOut | Failed(message: string)

  /** `is_element_selected(locator)`: a missing element or a timeout reads
      as False; any other exception propagates. */
  function IsElementSelected(l: Lookup): (r: Result<bool, string>)
    ensures l.Found? ==> r == Ok(l.selected)
    ensures l.Missing? || l.TimedOut? ==> r == Ok(false)
    ensures l.Failed? ==> r == Err(l.message)
  {
    match l
    case Found(s, _) => Ok(s)
    case Missing => Ok(false)
    case TimedOut => Ok(false)
    case Failed(m) => Err(m)
  }

  /** `is_element_enabled(locator)`, with the same fallbacks. */
  function IsElementEnabled(l: Lookup): (r: Result<bool, string>)
    ensures l.Found? ==> r == Ok(l.enabled)
    ensures l.Missing? || l.TimedOut? ==> r == Ok(false)
    ensures l.Failed? ==> r == Err(l.message)
  {
    match l
    case Found(_, e) => Ok(e)
    case Missing => Ok(false)
    case TimedOut => Ok(false)
    case Failed(m) => Err(m)
  }

  /** Whether a guarded action clicks: `check_checkbox` and
      `select_radio_button` click only an element that does not read as
      selected, `uncheck_checkbox` only one that does. */
  function CheckClicks(l: Lookup): (r: Result<bool, string>)
    ensures r.Ok? ==> (r.value <==> IsElementSelected(l) == Ok(false))
    ensures r.Err? <==> l.Failed?
  {
    match IsElementSelected(l)
    case Ok(s) => Ok(!s)
    case Err(m) => Err(m)
  }

  function UncheckClicks(l: Lookup): (r: Result<bool, string>)
    ensures r.Ok? ==> (r.value <==> IsElementSelected(l) == Ok(true))
    ensures r.Err? <==> l.Failed?
  {
    match IsElementSelected(l)
    case Ok(s) => Ok(s)
    case Err(m) => Err(m)
  }

  function SelectRadioClicks(l: Lookup): (r: Result<bool, string>)
    ensures r == CheckClicks(l)
  {
    match IsElementSelected(l)
    case Ok(s) => Ok(!s)
    case Err(m) => Err(m)
  }

  /** A click on a found box flips its selection. */
  function Clicked(l: Lookup): Lookup {
    if l.Found? then l.(selected := !l.selected) else l
  }

  /** The element after a guarded action: clicked when the action clicks. */
  function After(l: Lookup, clicks: Result<bool, string>): Lookup {
    if clicks == Ok(true) then Clicked(l) else l
  }

  /** On a found box, checking leaves it selected and checking again does
      not click; unchecking leaves it unselected and unchecking again does
      not click; a selected radio is never clicked. */
  lemma GuardedActionsSettle(selected: bool, enabled: bool)
    ensures var l := Found(selected, enabled);
            var c := After(l, CheckClicks(l));
            c.selected && CheckClicks(c) == Ok(false)
    ensures var l := Found(selected, enabled);
            var u := After(l, UncheckClicks(l));
            !u.selected && UncheckClicks(u) == Ok(false)
    ensures SelectRadioClicks(Found(true, enabled)) == Ok(false)
  {}

  /** Checking clicks exactly the boxes that unchecking leaves alone, as
      long as the lookup itself does not fail. */
  lemma CheckUncheckComplement(l: Lookup)
    requires !l.Failed?
    ensures CheckClicks(l).Ok? && UncheckClicks(l).Ok?
    ensures CheckClicks(l).value != UncheckClicks(l).value
  {}
}
