/** The Selenium variant's driver wrapper (`SeleniumDriver`): locator
    strings become `(By, value)` pairs, element lookups wait on a
    condition, and every browser fault becomes `None`, `False` or `""`
    instead of an exception. The WebDriver itself is the `Browser`
    record of functions below: each field answers one WebDriver call,
    with `Err(message)` for the exception it would raise. */
module SeleniumDriver {
  import opened Text

  /** Selenium's `By` strategies. */
  datatype By = ById | ByXPath | ByCss | ByName | ByClassName | ByLinkText | ByPartialLinkText | ByTagName

  datatype Locator = Locator(strategy: By, value: string)

  /** `Config.DEFAULT_WAIT`, in seconds. */
  const DEFAULT_WAIT: int := 10

  /** The prefix that names a strategy in a locator string, for every
      strategy but XPath (which is recognised by its shape). */
  function TagFor(s: By): string
    requires s != ByXPath
  {
    match s
    case ById => "id="
    case ByCss => "css="
    case ByName => "name="
    case ByClassName => "class="
    case ByLinkText => "link="
    case ByPartialLinkText => "partial_link="
    case ByTagName => "tag="
  }

  /** The classification `_parse_locator` applies to a trimmed locator:
      the value it picks is a suffix of its input. */
  function Classify(t: string): (l: Locator)
    ensures |l.value| <= |t|
    ensures l.value == t[|t| - |l.value|..]
  {
    if StartsWith(t, "//") || StartsWith(t, "(//") then Locator(ByXPath, t)
    else if StartsWith(t, "id=") then Locator(ById, t[3..])
    else if StartsWith(t, "css=") then Locator(ByCss, t[4..])
    else if StartsWith(t, "name=") then Locator(ByName, t[5..])
    else if StartsWith(t, "class=") then Locator(ByClassName, t[6..])
    else if StartsWith(t, "link=") then Locator(ByLinkText, t[5..])
    else if StartsWith(t, "partial_link=") then Locator(ByPartialLinkText, t[13..])
    else if StartsWith(t, "tag=") then Locator(ByTagName, t[4..])
    else if '/' in t || StartsWith(t, "(") then Locator(ByXPath, t)
    else Locator(ById, t)
  }

  /** `_parse_locator`: trim, then classify by prefix. The value is
      always a suffix of the trimmed locator. */
  function ParseLocator(locator: string): (r: Locator)
    ensures |r.value| <= |Strip(locator)|
    ensures r.value == Strip(locator)[|Strip(locator)| - |r.value|..]
  {
    Classify(Strip(locator))
  }

  /** The locator is trimmed before it is classified: surrounding
      whitespace never changes the result. */
  lemma ParseIgnoresSurroundingSpace(locator: string)
    ensures ParseLocator(Strip(locator)) == ParseLocator(locator)
  {
    StripIdempotent(locator);
  }

  /** A trimmed locator starting with `//` or `(//` is XPath, whole. */
  lemma ParseXPath(locator: string)
    requires StartsWith(Strip(locator), "//") || StartsWith(Strip(locator), "(//")
    ensures ParseLocator(locator) == Locator(ByXPath, Strip(locator))
  {}

  /** True when the string starts with one of the strategy tags. */
  predicate HasTag(t: string) {
    StartsWith(t, "id=") || StartsWith(t, "css=") || StartsWith(t, "name=")
    || StartsWith(t, "class=") || StartsWith(t, "link=")
    || StartsWith(t, "partial_link=") || StartsWith(t, "tag=")
  }

  /** A tagged locator gets that tag's strategy, and the tag followed by
      the value gives back the trimmed locator. Tags win over the `/`
      fallback: `id=a/b` is `(ID, "a/b")`. */
  lemma ParseTagged(locator: string, s: By)
    requires s != ByXPath && StartsWith(Strip(locator), TagFor(s))
    ensures ParseLocator(locator).strategy == s
    ensures TagFor(s) + ParseLocator(locator).value == Strip(locator)
  {
    var t := Strip(locator);
    ClassifyTagged(t, s);
    assert ParseLocator(locator) == Locator(s, t[|TagFor(s)|..]);
    assert t == TagFor(s) + t[|TagFor(s)|..];
  }

  lemma ClassifyTagged(t: string, s: By)
    requires s != ByXPath && StartsWith(t, TagFor(s))
    ensures Classify(t) == Locator(s, t[|TagFor(s)|..])
  {
    assert t[0] == TagFor(s)[0];
    assert !StartsWith(t, "//") && !StartsWith(t, "(//");
    match s
    case ById =>
    case ByCss =>
      assert t[0] == 'c';
    case ByName =>
      assert t[0] == 'n';
    case ByClassName =>
      assert t[0] == 'c' && t[1] == 'l';
    case ByLinkText =>
      assert t[0] == 'l';
    case ByPartialLinkText =>
      assert t[0] == 'p';
    case ByTagName =>
      assert t[0] == 't';
  }

  /** Without a tag, the whole trimmed string is the value, and it is
      XPath exactly when it contains `/` or starts with `(`; otherwise ID. */
  lemma ParseUntagged(locator: string)
    requires !HasTag(Strip(locator))
    ensures ParseLocator(locator).value == Strip(locator)
    ensures ParseLocator(locator).strategy == ByXPath <==> ('/' in Strip(locator) || StartsWith(Strip(locator), "("))
    ensures ParseLocator(locator).strategy != ByXPath ==> ParseLocator(locator).strategy == ById
  {
    var t := Strip(locator);
    if StartsWith(t, "//") {
      assert t[1] == '/';
    }
  }

  /** Writing a strategy's tag before a value and parsing gives back that
      strategy and value, for any value without trailing whitespace. */
  lemma {:induction false} ParseRendered(s: By, v: string)
    requires s != ByXPath
    requires v == [] || !IsSpace(v[|v| - 1])
    ensures ParseLocator(TagFor(s) + v) == Locator(s, v)
  {
    var p := TagFor(s);
    StripTaggedPrefix(p, v);
    TrimRightAppend(p, v);
    TrimRightNoop(v);
    assert Strip(p + v) == p + v;
    ParseTagged(p + v, s);
    assert ParseLocator(p + v).value == (p + v)[|p|..];
    assert (p + v)[|p|..] == v;
  }

  /** Element handles returned by the browser. */
  datatype Element = Element(id: nat)

  /** The expected condition a wait polls for. */
  datatype Condition = Visible | Clickable | Present

  /** What `WebDriverWait(driver, t).until(condition(locator))` does:
      returns an element, raises `TimeoutException`, or raises another
      error. */
  datatype WaitResult = Located(element: Element) | TimedOut | WaitFault(message: string)

  /** A frame switch target: an element found by the reference, or the
      raw reference string. */
  datatype FrameTarget = FrameElement(element: Element) | FrameName(name: string)

  /** The supported browser kinds of `start_browser`. */
  datatype BrowserKind = Chrome | Firefox | Edge

  /** The WebDriver as an oracle: one field per call the wrapper makes,
      each answering with the call's value or the message of the
      exception it raises. */
  datatype Browser = Browser(
    wait: (Condition, Locator, int) -> WaitResult,
    get: string -> Result<(), string>,
    refresh: Result<(), string>,
    back: Result<(), string>,
    forward: Result<(), string>,
    title: Result<string, string>,
    currentUrl: Result<string, string>,
    frame: FrameTarget -> Result<(), string>,
    defaultContent: Result<(), string>,
    saveScreenshot: string -> Result<string, string>)

  /** `timeout if timeout else Config.DEFAULT_WAIT`: `None` and `0` are
      both falsy. */
  function WaitTime(timeout: Option<int>): (t: int)
    ensures timeout.Some? && timeout.value != 0 ==> t == timeout.value
    ensures timeout == None || timeout == Some(0) ==> t == DEFAULT_WAIT
  {
    if timeout.Some? && timeout.value != 0 then timeout.value else DEFAULT_WAIT
  }

  /** The condition named by `wait_for_element`'s `condition` argument. */
  function ConditionNamed(condition: string): (c: Condition)
    ensures c == Visible <==> condition == "visible"
    ensures c == Clickable <==> condition == "clickable"
  {
    if condition == "visible" then Visible
    else if condition == "clickable" then Clickable
    else Present
  }

  /** `wait_for_element`: wait for the condition on the parsed locator;
      a timeout or any other error gives `None`. */
  function WaitForElement(b: Browser, locator: string, timeout: Option<int>, condition: string): (r: Option<Element>)
    ensures r.Some? <==> b.wait(ConditionNamed(condition), ParseLocator(locator), WaitTime(timeout)).Located?
    ensures r.Some? ==> r.value == b.wait(ConditionNamed(condition), ParseLocator(locator), WaitTime(timeout)).element
  {
    match b.wait(ConditionNamed(condition), ParseLocator(locator), WaitTime(timeout))
    case Located(e) => Some(e)
    case TimedOut => None
    case WaitFault(_) => None
  }

  /** `get_element`: wait for presence; a timeout or any other error gives `None`. */
  function GetElement(b: Browser, locator: string, timeout: Option<int>): (r: Option<Element>)
    ensures r.Some? <==> b.wait(Present, ParseLocator(locator), WaitTime(timeout)).Located?
    ensures r.Some? ==> r.value == b.wait(Present, ParseLocator(locator), WaitTime(timeout)).element
  {
    match b.wait(Present, ParseLocator(locator), WaitTime(timeout))
    case Located(e) => Some(e)
    case TimedOut => None
    case WaitFault(_) => None
  }

  /** Any condition other than `visible` and `clickable`, `present`
      included, waits exactly as `get_element` does. */
  lemma OtherConditionsArePresence(b: Browser, locator: string, timeout: Option<int>, condition: string)
    requires condition != "visible" && condition != "clickable"
    ensures WaitForElement(b, locator, timeout, condition) == GetElement(b, locator, timeout)
  {}

  /** Neither lookup raises: a wait that times out or faults is `None`. */
  lemma LookupsAbsorbFaults(b: Browser, locator: string, timeout: Option<int>, condition: string)
    requires !b.wait(ConditionNamed(condition), ParseLocator(locator), WaitTime(timeout)).Located?
    ensures WaitForElement(b, locator, timeout, condition) == None
  {}

  /** How launching a browser ends: the driver created and configured; the
      driver created, so that `self.driver` is set, but one of the
      configuration calls after it (the implicit wait, the page-load and
      script timeouts, the window size) raising; or no driver created. */
  datatype Launch = Started | DriverLeft | NoDriver

  /** How `start_browser` ends for the configured name: an unsupported
      name creates no driver. */
  function Launched(browserName: string, launch: BrowserKind -> Launch): (l: Launch)
    ensures l != NoDriver ==> Lower(browserName) in {"chrome", "firefox", "edge"}
  {
    var name := Lower(browserName);
    if name == "chrome" then launch(Chrome)
    else if name == "firefox" then launch(Firefox)
    else if name == "edge" then launch(Edge)
    else NoDriver
  }

  /** `start_browser`: the lower-cased configured name must be a
      supported browser, and launching and configuring it must succeed. */
  function StartBrowser(browserName: string, launch: BrowserKind -> Launch): (ok: bool)
    ensures ok ==> Lower(browserName) in {"chrome", "firefox", "edge"}
    ensures Lower(browserName) == "chrome" ==> (ok <==> launch(Chrome) == Started)
    ensures Lower(browserName) == "firefox" ==> (ok <==> launch(Firefox) == Started)
    ensures Lower(browserName) == "edge" ==> (ok <==> launch(Edge) == Started)
  {
    Launched(browserName, launch) == Started
  }

  /** Whether `self.driver` is set once `start_browser` has returned: always
      after a start, and also after a `False` whose exception came after
      the driver was created. */
  function DriverSet(browserName: string, launch: BrowserKind -> Launch): (isSet: bool)
    ensures StartBrowser(browserName, launch) ==> isSet
    ensures isSet ==> Lower(browserName) in {"chrome", "firefox", "edge"}
    ensures isSet && !StartBrowser(browserName, launch) ==> Launched(browserName, launch) == DriverLeft
  {
    Launched(browserName, launch) != NoDriver
  }

  /** `navigate_to`: `True` iff `driver.get(url)` returns. */
  function NavigateTo(b: Browser, url: string): (ok: bool)
    ensures ok <==> b.get(url).Ok?
  {
    b.get(url).Ok?
  }

  /** `take_screenshot`: the saved path, or `None` on error. */
  function TakeScreenshot(b: Browser, name: string): (r: Option<string>)
    ensures r.Some? <==> b.saveScreenshot(name).Ok?
  {
    match b.saveScreenshot(name)
    case Ok(path) => Some(path)
    case Err(_) => None
  }

  /** `get_page_title`: the title, or `""` on error. */
  function GetPageTitle(b: Browser): (r: string)
    ensures b.title.Err? ==> r == ""
    ensures b.title.Ok? ==> r == b.title.value
  {
    if b.title.Ok? then b.title.value else ""
  }

  /** `get_current_url`: the URL, or `""` on error. */
  function GetCurrentUrl(b: Browser): (r: string)
    ensures b.currentUrl.Err? ==> r == ""
    ensures b.currentUrl.Ok? ==> r == b.currentUrl.value
  {
    if b.currentUrl.Ok? then b.currentUrl.value else ""
  }

  /** `switch_to_frame` with a string reference: the element it locates
      if any, else the reference itself as a frame name. */
  function SwitchToFrame(b: Browser, reference: string): (ok: bool)
    ensures GetElement(b, reference, None).Some? ==>
              (ok <==> b.frame(FrameElement(GetElement(b, reference, None).value)).Ok?)
    ensures GetElement(b, reference, None).None? ==> (ok <==> b.frame(FrameName(reference)).Ok?)
  {
    match GetElement(b, reference, None)
    case Some(e) => b.frame(FrameElement(e)).Ok?
    case None => b.frame(FrameName(reference)).Ok?
  }

  function SwitchToDefaultContent(b: Browser): (ok: bool)
    ensures ok <==> b.defaultContent.Ok?
  {
    b.defaultContent.Ok?
  }

  function RefreshPage(b: Browser): (ok: bool)
    ensures ok <==> b.refresh.Ok?
  {
    b.refresh.Ok?
  }

  function GoBack(b: Browser): (ok: bool)
    ensures ok <==> b.back.Ok?
  {
    b.back.Ok?
  }

  function GoForward(b: Browser): (ok: bool)
    ensures ok <==> b.forward.Ok?
  {
    b.forward.Ok?
  }
}
