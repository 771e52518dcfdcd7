/** The Playwright variant's keyword engine (`KeywordEngine`): a local
    table from keyword names to handlers, every handler called
    positionally with `(locator, value)` and answering `(success, message)`.
    Each handler catches its own errors; an unsupported name becomes a
    failed outcome. */
module PlaywrightKeywords {
  import opened Text
  import opened Steps

  /** The locator argument as the executor passes it on: the text of the
      step's locator cell, or `None` when that cell is empty. */
  type Arg = Option<string>

  /** Calls a handler makes on the page itself. A reply is the text the
      call returns (the title for `ReadTitle`, the URL for `ReadUrl`). */
  datatype PageCall =
    | Goto(url: Arg) | ReadTitle | ReadUrl | KeyboardPress(key: Arg)
    | FrameLocator(selector: Arg) | MainFrame | OnDialog(accept: bool)
    | Reload | Back | Forward | ClosePage

  /** Calls a handler makes on `page.locator(locator)`. */
  datatype LocatorCall =
    | LocClick | LocRightClick | LocDblclick | LocFill(text: string) | LocSelectOption(option: string)
    | LocClear | LocCheck | LocUncheck | LocHover | LocScrollIntoView | LocWaitFor(timeout: int)

  /** Boolean locator queries. */
  datatype Probe = Visible | Enabled

  /** The page as the engine sees it. Each call answers with a value or the
      message of the exception raised. `textContent` answers `None` for an
      element without text; `sleepFor(s)` is `time.sleep(float(s))`,
      answering `str()` of the number slept or the error message. */
  datatype Page = Page(
    call: PageCall -> Result<string, string>,
    act: (Arg, LocatorCall) -> Result<(), string>,
    textContent: Arg -> Result<Option<string>, string>,
    probe: (Arg, Probe) -> Result<bool, string>,
    sleepFor: string -> Result<string, string>)

  /** The handlers of the keyword table. */
  datatype Handler =
    | Navigate | Click | EnterText | SelectOption
    | VerifyText | VerifyTitle | VerifyUrl | Wait
    | Clear | Check | Uncheck | Hover | DoubleClick | RightClick
    | PressKey | GetText | IsVisible | IsEnabled | ScrollTo
    | SwitchToFrame | SwitchToDefault | AcceptAlert | DismissAlert
    | Refresh | GoBack | GoForward | CloseTab | WaitForElement

  /** `keyword_map` as built by `execute_keyword`: 28 names. */
  const KeywordMap: map<string, Handler> := map[
    "NAVIGATE" := Navigate, "CLICK" := Click, "ENTER" := EnterText, "SELECT" := SelectOption,
    "VERIFY_TEXT" := VerifyText, "VERIFY_TITLE" := VerifyTitle, "VERIFY_URL" := VerifyUrl,
    "WAIT" := Wait, "CLEAR" := Clear, "CHECK" := Check, "UNCHECK" := Uncheck, "HOVER" := Hover,
    "DOUBLE_CLICK" := DoubleClick, "RIGHT_CLICK" := RightClick, "PRESS_KEY" := PressKey,
    "GET_TEXT" := GetText, "IS_VISIBLE" := IsVisible, "IS_ENABLED" := IsEnabled,
    "SCROLL_TO" := ScrollTo, "SWITCH_TO_FRAME" := SwitchToFrame, "SWITCH_TO_DEFAULT" := SwitchToDefault,
    "ACCEPT_ALERT" := AcceptAlert, "DISMISS_ALERT" := DismissAlert, "REFRESH" := Refresh,
    "GO_BACK" := GoBack, "GO_FORWARD" := GoForward, "CLOSE_TAB" := CloseTab,
    "WAIT_FOR_ELEMENT" := WaitForElement]

  /** The keywords the class docstring lists as supported. */
  const Documented: set<string> := {
    "NAVIGATE", "CLICK", "ENTER", "SELECT", "VERIFY_TEXT", "VERIFY_TITLE", "VERIFY_URL",
    "WAIT", "CLEAR", "CHECK", "UNCHECK", "HOVER", "DOUBLE_CLICK", "RIGHT_CLICK", "PRESS_KEY",
    "GET_TEXT", "IS_VISIBLE", "IS_ENABLED", "SCROLL_TO", "SWITCH_TO_FRAME", "SWITCH_TO_DEFAULT",
    "ACCEPT_ALERT", "DISMISS_ALERT", "REFRESH", "GO_BACK", "GO_FORWARD", "CLOSE_TAB"}

  /** `keyword.upper().strip()`. */
  function Normalize(keyword: string): string {
    Strip(Upper(keyword))
  }

  /** Normalising twice is normalising once. */
  lemma NormalizeIdempotent(keyword: string)
    ensures Normalize(Normalize(keyword)) == Normalize(keyword)
  {
    StripUpperCommute(Upper(keyword));
    UpperIdempotent(keyword);
    StripIdempotent(Upper(keyword));
  }

  /** A call on the page, reported as `done` or as `failed` followed by
      the error's message. */
  function PageStep(p: Page, c: PageCall, done: string, failed: string): (r: Outcome)
    ensures r.success <==> p.call(c).Ok?
    ensures r.success ==> r.message == done
    ensures !r.success ==> r.message == failed + p.call(c).error
  {
    match p.call(c)
    case Ok(_) => Outcome(true, done)
    case Err(m) => Outcome(false, failed + m)
  }

  /** A call on `page.locator(locator)`, reported the same way. */
  function LocatorStep(p: Page, locator: Arg, c: LocatorCall, done: string, failed: string): (r: Outcome)
    ensures r.success <==> p.act(locator, c).Ok?
    ensures r.success ==> r.message == done
    ensures !r.success ==> r.message == failed + p.act(locator, c).error
  {
    match p.act(locator, c)
    case Ok(_) => Outcome(true, done)
    case Err(m) => Outcome(false, failed + m)
  }

  /** `verify_text`: the expected text must occur, case-sensitively, in
      the element's text content; an element without text makes the `in`
      test raise, which the handler reports. */
  function VerifyTextHandler(p: Page, locator: Arg, expected: string): (r: Outcome)
    ensures r.success <==> p.textContent(locator).Ok? && p.textContent(locator).value.Some?
                           && Contains(p.textContent(locator).value.value, expected)
  {
    match p.textContent(locator)
    case Err(m) => Outcome(false, "Failed to verify text: " + m)
    case Ok(None) => Outcome(false, "Failed to verify text: argument of type 'NoneType' is not iterable")
    case Ok(Some(actual)) =>
      if Contains(actual, expected) then
        Outcome(true, "Text verification passed: '" + expected + "' found in '" + actual + "'")
      else Outcome(false, "Text verification failed: Expected '" + expected + "', but found '" + actual + "'")
  }

  /** The `TypeError` of `None in actual`. */
  const NoneLeftOperand := "'in <string>' requires string as left operand, not NoneType"

  /** `verify_title` and `verify_url`: the expected text, taken from the
      first (locator) argument, must occur case-sensitively in what the
      page reports; an empty cell (`None`) makes the `in` test raise,
      which the handler reports as a failure. */
  function VerifyPageHandler(p: Page, c: PageCall, expected: Arg, caption: string, failed: string): (r: Outcome)
    ensures r.success <==> p.call(c).Ok? && expected.Some? && Contains(p.call(c).value, expected.value)
    ensures p.call(c).Err? ==> r == Outcome(false, failed + p.call(c).error)
    ensures p.call(c).Ok? && expected.None? ==> r == Outcome(false, failed + NoneLeftOperand)
  {
    match p.call(c)
    case Err(m) => Outcome(false, failed + m)
    case Ok(actual) =>
      if expected.None? then Outcome(false, failed + NoneLeftOperand)
      else if Contains(actual, expected.value) then
        Outcome(true, caption + " verification passed: '" + expected.value + "' found in '" + actual + "'")
      else Outcome(false, caption + " verification failed: Expected '" + expected.value + "', but found '" + actual + "'")
  }

  /** `wait`: `float(seconds) if seconds else 1`, then sleep. */
  function WaitHandler(p: Page, seconds: Arg): (r: Outcome)
    ensures !Truthy(seconds) ==> r == Outcome(true, "Waited for 1 seconds")
    ensures Truthy(seconds) ==> (r.success <==> p.sleepFor(seconds.value).Ok?)
  {
    if !Truthy(seconds) then Outcome(true, "Waited for 1 seconds")
    else match p.sleepFor(seconds.value)
      case Ok(slept) => Outcome(true, "Waited for " + slept + " seconds")
      case Err(m) => Outcome(false, "Failed to wait: " + m)
  }

  /** The timeout of `wait_for_element` in milliseconds:
      `int(value) * 1000 if value else 10000`; `Err` is the ValueError. */
  function TimeoutMs(value: string): (r: Result<int, string>)
    ensures value == "" ==> r == Ok(10000)
    ensures value != "" && ParseInt(value).Some? ==> r == Ok(ParseInt(value).value * 1000)
    ensures value != "" && ParseInt(value).None? ==> r == Err(IntError(value))
  {
    if value == "" then Ok(10000)
    else match ParseInt(value)
      case None => Err(IntError(value))
      case Some(n) => Ok(n * 1000)
  }

  /** `wait_for_element`: wait for the element to become visible within
      the derived timeout; a bad timeout is caught by the handler too. */
  function WaitForElementHandler(p: Page, locator: Arg, value: string): (r: Outcome)
    ensures r.success <==> TimeoutMs(value).Ok? && p.act(locator, LocWaitFor(TimeoutMs(value).value)).Ok?
    ensures TimeoutMs(value).Err? ==> r == Outcome(false, "Element not found: " + TimeoutMs(value).error)
  {
    match TimeoutMs(value)
    case Err(m) => Outcome(false, "Element not found: " + m)
    case Ok(t) =>
      match p.act(locator, LocWaitFor(t))
      case Ok(_) => Outcome(true, "Element found: " + PyStr(locator))
      case Err(m) => Outcome(false, "Element not found: " + m)
  }

  /** `get_text`: reports the text content, `None` included. */
  function GetTextHandler(p: Page, locator: Arg): (r: Outcome)
    ensures r.success <==> p.textContent(locator).Ok?
  {
    match p.textContent(locator)
    case Ok(t) => Outcome(true, "Retrieved text: " + PyStr(t))
    case Err(m) => Outcome(false, "Failed to get text: " + m)
  }

  /** `is_visible` / `is_enabled`: reports the state, whatever it is. */
  function ProbeHandler(p: Page, locator: Arg, q: Probe, caption: string, failed: string): (r: Outcome)
    ensures r.success <==> p.probe(locator, q).Ok?
    ensures r.success ==> r.message == caption + PyBool(p.probe(locator, q).value)
  {
    match p.probe(locator, q)
    case Ok(b) => Outcome(true, caption + PyBool(b))
    case Err(m) => Outcome(false, failed + m)
  }

  /** The handler bodies, each called as `handler(locator, value)`. */
  function Run(h: Handler, p: Page, locator: Arg, value: string): (r: Outcome)
    ensures r.message != ""
  {
    match h
    case Navigate => PageStep(p, Goto(locator), "Successfully navigated to " + PyStr(locator), "Failed to navigate: ")
    case Click => LocatorStep(p, locator, LocClick, "Clicked on element: " + PyStr(locator), "Failed to click: ")
    case EnterText =>
      LocatorStep(p, locator, LocFill(value), "Entered text '" + value + "' in " + PyStr(locator), "Failed to enter text: ")
    case SelectOption =>
      LocatorStep(p, locator, LocSelectOption(value), "Selected option '" + value + "' from " + PyStr(locator),
                  "Failed to select option: ")
    case VerifyText => VerifyTextHandler(p, locator, value)
    case VerifyTitle => VerifyPageHandler(p, ReadTitle, locator, "Title", "Failed to verify title: ")
    case VerifyUrl => VerifyPageHandler(p, ReadUrl, locator, "URL", "Failed to verify URL: ")
    case Wait => WaitHandler(p, locator)
    case Clear => LocatorStep(p, locator, LocClear, "Cleared input field: " + PyStr(locator), "Failed to clear: ")
    case Check => LocatorStep(p, locator, LocCheck, "Checked checkbox: " + PyStr(locator), "Failed to check: ")
    case Uncheck => LocatorStep(p, locator, LocUncheck, "Unchecked checkbox: " + PyStr(locator), "Failed to uncheck: ")
    case Hover => LocatorStep(p, locator, LocHover, "Hovered over element: " + PyStr(locator), "Failed to hover: ")
    case DoubleClick =>
      LocatorStep(p, locator, LocDblclick, "Double clicked on element: " + PyStr(locator), "Failed to double click: ")
    case RightClick =>
      LocatorStep(p, locator, LocRightClick, "Right clicked on element: " + PyStr(locator), "Failed to right click: ")
    case PressKey => PageStep(p, KeyboardPress(locator), "Pressed key: " + PyStr(locator), "Failed to press key: ")
    case GetText => GetTextHandler(p, locator)
    case IsVisible => ProbeHandler(p, locator, Visible, "Element visibility: ", "Failed to check visibility: ")
    case IsEnabled => ProbeHandler(p, locator, Enabled, "Element enabled state: ", "Failed to check enabled state: ")
    case ScrollTo => LocatorStep(p, locator, LocScrollIntoView, "Scrolled to element: " + PyStr(locator), "Failed to scroll: ")
    case SwitchToFrame => PageStep(p, FrameLocator(locator), "Switched to frame: " + PyStr(locator), "Failed to switch frame: ")
    case SwitchToDefault => PageStep(p, MainFrame, "Switched to default content", "Failed to switch to default: ")
    case AcceptAlert => PageStep(p, OnDialog(true), "Alert accepted", "Failed to accept alert: ")
    case DismissAlert => PageStep(p, OnDialog(false), "Alert dismissed", "Failed to dismiss alert: ")
    case Refresh => PageStep(p, Reload, "Page refreshed", "Failed to refresh: ")
    case GoBack => PageStep(p, Back, "Navigated back", "Failed to go back: ")
    case GoForward => PageStep(p, Forward, "Navigated forward", "Failed to go forward: ")
    case CloseTab => PageStep(p, ClosePage, "Tab closed", "Failed to close tab: ")
    case WaitForElement => WaitForElementHandler(p, locator, value)
  }

  /** The message for a name outside the table. */
  function UnsupportedMessage(k: string): string {
    "Keyword '" + k + "' is not supported"
  }

  /** `execute_keyword`: normalise, look up in the table, call the handler. */
  function ExecuteKeyword(p: Page, keyword: string, locator: Arg, value: string): (r: Outcome)
    ensures Normalize(keyword) !in KeywordMap ==> r == Outcome(false, UnsupportedMessage(Normalize(keyword)))
    ensures Normalize(keyword) in KeywordMap ==> r == Run(KeywordMap[Normalize(keyword)], p, locator, value)
  {
    Dispatch(p, Normalize(keyword), locator, value)
  }

  /** Lookup and call of an already normalised keyword name `k`. */
  function Dispatch(p: Page, k: string, locator: Arg, value: string): (r: Outcome)
    ensures r.success ==> k in KeywordMap
    ensures k !in KeywordMap ==> r == Outcome(false, UnsupportedMessage(k))
  {
    if k in KeywordMap then Run(KeywordMap[k], p, locator, value)
    else Outcome(false, UnsupportedMessage(k))
  }

  /** The table holds exactly the 27 documented names and
      `WAIT_FOR_ELEMENT`, which the docstring leaves out. */
  lemma SupportedNames()
    ensures KeywordMap.Keys == Documented + {"WAIT_FOR_ELEMENT"}
    ensures "WAIT_FOR_ELEMENT" !in Documented
  {}

  /** Only the normalised name matters: surrounding whitespace and letter
      case in the keyword never change the outcome. */
  lemma ExecuteNormalizes(p: Page, keyword: string, locator: Arg, value: string)
    ensures ExecuteKeyword(p, keyword, locator, value) == ExecuteKeyword(p, Normalize(keyword), locator, value)
  {
    NormalizeIdempotent(keyword);
    assert ExecuteKeyword(p, Normalize(keyword), locator, value) == Dispatch(p, Normalize(keyword), locator, value);
  }

  /** An unsupported name's outcome does not depend on the page: no
      handler ran. */
  lemma UnsupportedIgnoresPage(p: Page, q: Page, keyword: string, locator: Arg, value: string)
    requires Normalize(keyword) !in KeywordMap
    ensures ExecuteKeyword(p, keyword, locator, value) == ExecuteKeyword(q, keyword, locator, value)
    ensures !ExecuteKeyword(p, keyword, locator, value).success
  {}

  /** The handlers that read the value argument; every other handler
      ignores it. */
  const ValueReaders: set<Handler> := {EnterText, SelectOption, VerifyText, WaitForElement}

  /** Handlers outside `ValueReaders` give the same outcome whatever the
      value cell holds: NAVIGATE, VERIFY_TITLE, VERIFY_URL, WAIT and
      PRESS_KEY take their argument from the locator cell. */
  lemma ValueIgnored(h: Handler, p: Page, locator: Arg, value: string)
    requires h !in ValueReaders
    ensures Run(h, p, locator, value) == Run(h, p, locator, "")
  {
    match h
    case Navigate =>
    case Click =>
    case VerifyTitle =>
    case VerifyUrl =>
    case Wait =>
    case Clear =>
    case Check =>
    case Uncheck =>
    case Hover =>
    case DoubleClick =>
    case RightClick =>
    case PressKey =>
    case GetText =>
    case IsVisible =>
    case IsEnabled =>
    case ScrollTo =>
    case SwitchToFrame =>
    case SwitchToDefault =>
    case AcceptAlert =>
    case DismissAlert =>
    case Refresh =>
    case GoBack =>
    case GoForward =>
    case CloseTab =>
  }

  /** NAVIGATE goes to the locator cell's text: a URL written only in the
      value cell is never visited. */
  lemma NavigateUsesLocator(p: Page, keyword: string, locator: Arg, value: string)
    requires Normalize(keyword) == "NAVIGATE"
    ensures ExecuteKeyword(p, keyword, locator, value).success <==> p.call(Goto(locator)).Ok?
  {
    assert KeywordMap["NAVIGATE"] == Navigate;
  }

  /** VERIFY_TITLE compares the page title with the locator cell, by
      case-sensitive containment; an empty locator cell fails the step
      with the `TypeError` of `None in title`. */
  lemma VerifyTitleUsesLocator(p: Page, keyword: string, locator: Arg, value: string)
    requires Normalize(keyword) == "VERIFY_TITLE"
    ensures ExecuteKeyword(p, keyword, locator, value).success
            <==> p.call(ReadTitle).Ok? && locator.Some? && Contains(p.call(ReadTitle).value, locator.value)
    ensures p.call(ReadTitle).Ok? && locator.None? ==>
              ExecuteKeyword(p, keyword, locator, value) == Outcome(false, "Failed to verify title: " + NoneLeftOperand)
  {
    assert KeywordMap["VERIFY_TITLE"] == VerifyTitle;
  }

  /** VERIFY_URL compares the page URL with the locator cell the same way,
      and fails the same way on an empty locator cell. */
  lemma VerifyUrlUsesLocator(p: Page, keyword: string, locator: Arg, value: string)
    requires Normalize(keyword) == "VERIFY_URL"
    ensures ExecuteKeyword(p, keyword, locator, value).success
            <==> p.call(ReadUrl).Ok? && locator.Some? && Contains(p.call(ReadUrl).value, locator.value)
    ensures p.call(ReadUrl).Ok? && locator.None? ==>
              ExecuteKeyword(p, keyword, locator, value) == Outcome(false, "Failed to verify URL: " + NoneLeftOperand)
  {
    assert KeywordMap["VERIFY_URL"] == VerifyUrl;
  }

  /** WAIT with an empty locator cell waits the default second and
      succeeds, whatever the value cell holds. */
  lemma WaitDefault(p: Page, keyword: string, locator: Arg, value: string)
    requires Normalize(keyword) == "WAIT" && !Truthy(locator)
    ensures ExecuteKeyword(p, keyword, locator, value) == Outcome(true, "Waited for 1 seconds")
  {
    assert KeywordMap["WAIT"] == Wait;
  }

  /** WAIT_FOR_ELEMENT waits `value` seconds given in milliseconds, or
      10000 ms when the value is empty. */
  lemma WaitForElementTimeout(p: Page, keyword: string, locator: Arg, value: string)
    requires Normalize(keyword) == "WAIT_FOR_ELEMENT"
    ensures value == "" ==>
              (ExecuteKeyword(p, keyword, locator, value).success <==> p.act(locator, LocWaitFor(10000)).Ok?)
    ensures value != "" && ParseInt(value).Some? ==>
              (ExecuteKeyword(p, keyword, locator, value).success
               <==> p.act(locator, LocWaitFor(ParseInt(value).value * 1000)).Ok?)
    ensures value != "" && ParseInt(value).None? ==>
              ExecuteKeyword(p, keyword, locator, value) == Outcome(false, "Element not found: " + IntError(value))
  {
    assert KeywordMap["WAIT_FOR_ELEMENT"] == WaitForElement;
  }

  /** The queries for the element's state or text */
  const Queries: set<Handler> := {GetText, IsVisible, IsEnabled}

  /** GET_TEXT, IS_VISIBLE and IS_ENABLED are not assertions: they succeed
      whenever the page answers, whatever it answers. */
  lemma QueriesSucceed(h: Handler, p: Page, locator: Arg, value: string)
    requires h in Queries
    ensures h == GetText ==> (Run(h, p, locator, value).success <==> p.textContent(locator).Ok?)
    ensures h == IsVisible ==> (Run(h, p, locator, value).success <==> p.probe(locator, Visible).Ok?)
    ensures h == IsEnabled ==> (Run(h, p, locator, value).success <==> p.probe(locator, Enabled).Ok?)
  {}

  /** The handlers whose whole work is one page or locator call, and that
      call: its failure is the handler's failure. */
  function CallOf(h: Handler, locator: Arg, value: string): Option<Result<PageCall, LocatorCall>> {
    match h
    case Navigate => Some(Ok(Goto(locator)))
    case PressKey => Some(Ok(KeyboardPress(locator)))
    case SwitchToFrame => Some(Ok(FrameLocator(locator)))
    case SwitchToDefault => Some(Ok(MainFrame))
    case AcceptAlert => Some(Ok(OnDialog(true)))
    case DismissAlert => Some(Ok(OnDialog(false)))
    case Refresh => Some(Ok(Reload))
    case GoBack => Some(Ok(Back))
    case GoForward => Some(Ok(Forward))
    case CloseTab => Some(Ok(ClosePage))
    case Click => Some(Err(LocClick))
    case EnterText => Some(Err(LocFill(value)))
    case SelectOption => Some(Err(LocSelectOption(value)))
    case Clear => Some(Err(LocClear))
    case Check => Some(Err(LocCheck))
    case Uncheck => Some(Err(LocUncheck))
    case Hover => Some(Err(LocHover))
    case DoubleClick => Some(Err(LocDblclick))
    case RightClick => Some(Err(LocRightClick))
    case ScrollTo => Some(Err(LocScrollIntoView))
    case _ => None
  }

  /** Whether that call succeeds on page `p`. */
  predicate CallSucceeds(p: Page, locator: Arg, c: Result<PageCall, LocatorCall>) {
    match c
    case Ok(pc) => p.call(pc).Ok?
    case Err(lc) => p.act(locator, lc).Ok?
  }

  /** A one-call handler succeeds exactly when its call does: an error
      inside a handler is caught there and reported as a failure. */
  lemma OneCallHandlers(h: Handler, p: Page, locator: Arg, value: string)
    requires CallOf(h, locator, value).Some?
    ensures Run(h, p, locator, value).success <==> CallSucceeds(p, locator, CallOf(h, locator, value).value)
  {
    match h
    case Navigate =>
    case PressKey =>
    case SwitchToFrame =>
    case SwitchToDefault =>
    case AcceptAlert =>
    case DismissAlert =>
    case Refresh =>
    case GoBack =>
    case GoForward =>
    case CloseTab =>
    case Click =>
    case EnterText =>
    case SelectOption =>
    case Clear =>
    case Check =>
    case Uncheck =>
    case Hover =>
    case DoubleClick =>
    case RightClick =>
    case ScrollTo =>
  }
}
