/** The Selenium variant's keyword engine (`KeywordEngine`): a fixed map
    from keyword names to handlers, each handler taking `(locator, value)`
    and answering `(success, message)`. `execute_keyword` never raises:
    an unknown name and every fault that escapes a handler become a
    failed outcome. */
module SeleniumKeywords {
  import opened Text
  import opened Steps
  import opened SeleniumDriver

  /** What `send_keys` is given: a named key of `Keys`, or plain text. */
  datatype Key = NamedKey(name: string) | KeyText(text: string)

  /** Calls a handler makes on a located element (directly, through
      `Select`, through `ActionChains` or through a script). A reply is
      the `str()` of the value returned, if any. */
  datatype Action =
    | Clear | SendKeys(keys: Key) | Click | ScriptClick | DoubleClick | ContextClick
    | MoveTo | ScrollIntoView | DragTo(target: Element)
    | MakeSelect | SelectByText(text: string) | SelectByValue(option: string) | SelectByIndex(index: int)
    | ReadText | ReadAttribute(name: string)

  /** Boolean element queries. */
  datatype Probe = IsSelected | IsDisplayed | IsEnabled

  datatype AlertOp = Accept | Dismiss | ReadAlert

  /** How an alert call fails: `NoAlertPresentException`, or some other error. */
  datatype AlertError = NoAlert | AlertFault(message: string)

  /** The browser as the engine sees it: the driver wrapper's browser
      plus the element, alert and window calls the handlers make. Each
      answers with a value or the message of the exception raised.
      `sleepFor` is `time.sleep(float(v))`, answering `str()` of the
      number slept or the error message. */
  datatype Page = Page(
    driver: Browser,
    act: (Element, Action) -> Result<string, string>,
    probe: (Element, Probe) -> Result<bool, string>,
    activeKeys: Key -> Result<(), string>,
    alert: AlertOp -> Result<string, AlertError>,
    closeTab: Result<(), string>,
    handles: Result<seq<string>, string>,
    switchWindow: string -> Result<(), string>,
    script: string -> Result<string, string>,
    sleepFor: string -> Result<string, string>)

  /** The handlers of `keyword_map`. */
  datatype Handler =
    | Navigate | Refresh | GoBack | GoForward
    | EnterText | ClearText | SelectDropdown
    | ClickElement | DoubleClickElement | RightClickElement
    | VerifyText | VerifyTitle | VerifyUrl | VerifyElement
    | Wait | WaitForElementVisible
    | Check | Uncheck
    | Hover | ScrollTo | DragDrop
    | PressKey
    | SwitchToFrameHandler | SwitchToDefault
    | AcceptAlert | DismissAlert | GetAlertText
    | CloseTab | SwitchWindow
    | GetText | GetAttribute | IsVisible | IsEnabledHandler | IsSelectedHandler
    | ExecuteScript

  /** `keyword_map`: the 35 keyword names and their handlers. */
  const KeywordMap: map<string, Handler> := map[
    "NAVIGATE" := Navigate, "REFRESH" := Refresh, "GO_BACK" := GoBack, "GO_FORWARD" := GoForward,
    "ENTER" := EnterText, "CLEAR" := ClearText, "SELECT" := SelectDropdown,
    "CLICK" := ClickElement, "DOUBLE_CLICK" := DoubleClickElement, "RIGHT_CLICK" := RightClickElement,
    "VERIFY_TEXT" := VerifyText, "VERIFY_TITLE" := VerifyTitle, "VERIFY_URL" := VerifyUrl,
    "VERIFY_ELEMENT" := VerifyElement,
    "WAIT" := Wait, "WAIT_FOR_ELEMENT" := WaitForElementVisible,
    "CHECK" := Check, "UNCHECK" := Uncheck,
    "HOVER" := Hover, "SCROLL_TO" := ScrollTo, "DRAG_DROP" := DragDrop,
    "PRESS_KEY" := PressKey,
    "SWITCH_TO_FRAME" := SwitchToFrameHandler, "SWITCH_TO_DEFAULT" := SwitchToDefault,
    "ACCEPT_ALERT" := AcceptAlert, "DISMISS_ALERT" := DismissAlert, "GET_ALERT_TEXT" := GetAlertText,
    "CLOSE_TAB" := CloseTab, "SWITCH_WINDOW" := SwitchWindow,
    "GET_TEXT" := GetText, "GET_ATTRIBUTE" := GetAttribute,
    "IS_VISIBLE" := IsVisible, "IS_ENABLED" := IsEnabledHandler, "IS_SELECTED" := IsSelectedHandler,
    "EXECUTE_SCRIPT" := ExecuteScript]

  /** `keyword.strip().upper()`. */
  function Normalize(keyword: string): string {
    Upper(Strip(keyword))
  }

  /** Normalising twice is normalising once. */
  lemma NormalizeIdempotent(keyword: string)
    ensures Normalize(Normalize(keyword)) == Normalize(keyword)
  {
    StripUpperCommute(Strip(keyword));
    StripIdempotent(keyword);
    UpperIdempotent(Strip(keyword));
  }

  /** `value if value else locator`. */
  function ValueOr(locator: string, value: string): (r: string)
    ensures value != "" ==> r == value
    ensures value == "" ==> r == locator
  {
    if value != "" then value else locator
  }

  /** The common shape of the element handlers: a locator is required,
      the element must be found, and then one call on it must return. */
  function OnElement(p: Page, locator: string, action: Action, done: string, failed: string): (r: Outcome)
    ensures locator == "" ==> r == Outcome(false, "No locator provided")
    ensures r.success <==> locator != "" && GetElement(p.driver, locator, None).Some?
                           && p.act(GetElement(p.driver, locator, None).value, action).Ok?
    ensures r.success ==> r.message == done
  {
    if locator == "" then Outcome(false, "No locator provided")
    else match GetElement(p.driver, locator, None)
      case None => Outcome(false, "Element not found: " + locator)
      case Some(e) =>
        match p.act(e, action)
        case Ok(_) => Outcome(true, done)
        case Err(m) => Outcome(false, failed + m)
  }

  /** The common shape of `IS_VISIBLE`, `IS_ENABLED` and `IS_SELECTED`:
      a found element is reported as success whatever the probe answers. */
  function ProbeElement(p: Page, locator: string, probe: Probe, caption: string, failed: string): (r: Outcome)
    ensures locator == "" ==> r == Outcome(false, "No locator provided")
    ensures r.success <==> locator != "" && GetElement(p.driver, locator, None).Some?
                           && p.probe(GetElement(p.driver, locator, None).value, probe).Ok?
  {
    if locator == "" then Outcome(false, "No locator provided")
    else match GetElement(p.driver, locator, None)
      case None => Outcome(false, "Element not found: " + locator)
      case Some(e) =>
        match p.probe(e, probe)
        case Ok(b) => Outcome(true, caption + PyBool(b))
        case Err(m) => Outcome(false, failed + m)
  }

  /** `_navigate`: the value, or else the locator, is the URL. */
  function NavigateHandler(p: Page, locator: string, value: string): (r: Outcome)
    ensures ValueOr(locator, value) == "" ==> r == Outcome(false, "No URL provided")
    ensures r.success <==> ValueOr(locator, value) != "" && p.driver.get(ValueOr(locator, value)).Ok?
  {
    var url := ValueOr(locator, value);
    if url == "" then Outcome(false, "No URL provided")
    else if NavigateTo(p.driver, url) then Outcome(true, "Navigated to: " + url)
    else Outcome(false, "Failed to navigate to: " + url)
  }

  /** `_enter_text`: clear the element, then type the value. */
  function EnterTextHandler(p: Page, locator: string, value: string): (r: Outcome)
    ensures locator == "" ==> r == Outcome(false, "No locator provided")
    ensures r.success <==> locator != "" && GetElement(p.driver, locator, None).Some?
                           && p.act(GetElement(p.driver, locator, None).value, Clear).Ok?
                           && p.act(GetElement(p.driver, locator, None).value, SendKeys(KeyText(value))).Ok?
  {
    if locator == "" then Outcome(false, "No locator provided")
    else match GetElement(p.driver, locator, None)
      case None => Outcome(false, "Element not found: " + locator)
      case Some(e) =>
        match p.act(e, Clear)
        case Err(m) => Outcome(false, "Failed to enter text: " + m)
        case Ok(_) =>
          match p.act(e, SendKeys(KeyText(value)))
          case Err(m) => Outcome(false, "Failed to enter text: " + m)
          case Ok(_) => Outcome(true, "Entered text: " + value)
  }

  /** `_select_dropdown`: by visible text, then by value, then by index
      when the value parses as an integer; the first that works wins. */
  function SelectHandler(p: Page, locator: string, value: string): (r: Outcome)
    ensures locator == "" ==> r == Outcome(false, "No locator provided")
  {
    if locator == "" then Outcome(false, "No locator provided")
    else match GetElement(p.driver, locator, None)
      case None => Outcome(false, "Element not found: " + locator)
      case Some(e) =>
        match p.act(e, MakeSelect)
        case Err(m) => Outcome(false, "Failed to select dropdown: " + m)
        case Ok(_) =>
          if p.act(e, SelectByText(value)).Ok? then Outcome(true, "Selected option: " + value)
          else if p.act(e, SelectByValue(value)).Ok? then Outcome(true, "Selected option by value: " + value)
          else if ParseInt(value).Some? && p.act(e, SelectByIndex(ParseInt(value).value)).Ok? then
            Outcome(true, "Selected option by index: " + value)
          else Outcome(false, "Could not select option: " + value)
  }

  /** The select strategies are tried in order, and failing all three
      is reported with the value. */
  lemma SelectOrder(p: Page, locator: string, value: string, e: Element)
    requires locator != "" && GetElement(p.driver, locator, None) == Some(e) && p.act(e, MakeSelect).Ok?
    ensures p.act(e, SelectByText(value)).Ok? ==>
              SelectHandler(p, locator, value) == Outcome(true, "Selected option: " + value)
    ensures !p.act(e, SelectByText(value)).Ok? && p.act(e, SelectByValue(value)).Ok? ==>
              SelectHandler(p, locator, value) == Outcome(true, "Selected option by value: " + value)
    ensures SelectHandler(p, locator, value).success <==>
              p.act(e, SelectByText(value)).Ok? || p.act(e, SelectByValue(value)).Ok?
              || (ParseInt(value).Some? && p.act(e, SelectByIndex(ParseInt(value).value)).Ok?)
    ensures !SelectHandler(p, locator, value).success ==>
              SelectHandler(p, locator, value) == Outcome(false, "Could not select option: " + value)
  {}

  /** `_click`: wait until clickable; if the click raises, fall back to
      a script click, reporting the first error if that fails too. */
  function ClickHandler(p: Page, locator: string): (r: Outcome)
    ensures locator == "" ==> r == Outcome(false, "No locator provided")
    ensures r.success <==>
              (locator != "" && WaitForElement(p.driver, locator, None, "clickable").Some?
               && (p.act(WaitForElement(p.driver, locator, None, "clickable").value, Click).Ok?
                   || p.act(WaitForElement(p.driver, locator, None, "clickable").value, ScriptClick).Ok?))
  {
    if locator == "" then Outcome(false, "No locator provided")
    else match WaitForElement(p.driver, locator, None, "clickable")
      case None => Outcome(false, "Element not clickable: " + locator)
      case Some(e) =>
        match p.act(e, Click)
        case Ok(_) => Outcome(true, "Clicked element")
        case Err(m) =>
          if p.act(e, ScriptClick).Ok? then Outcome(true, "Clicked element (via JavaScript)")
          else Outcome(false, "Failed to click: " + m)
  }

  /** `_verify_text`: case-insensitive containment of the value in the element's text. */
  function VerifyTextHandler(p: Page, locator: string, value: string): (r: Outcome)
    ensures locator == "" ==> r == Outcome(false, "No locator provided")
    ensures r.success <==>
              (locator != "" && GetElement(p.driver, locator, None).Some?
               && p.act(GetElement(p.driver, locator, None).value, ReadText).Ok?
               && Contains(Lower(p.act(GetElement(p.driver, locator, None).value, ReadText).value), Lower(value)))
  {
    if locator == "" then Outcome(false, "No locator provided")
    else match GetElement(p.driver, locator, None)
      case None => Outcome(false, "Element not found: " + locator)
      case Some(e) =>
        match p.act(e, ReadText)
        case Err(m) => Outcome(false, "Failed to verify text: " + m)
        case Ok(text) =>
          if Contains(Lower(text), Lower(value)) then
            Outcome(true, "Text verified: '" + value + "' found in '" + text + "'")
          else Outcome(false, "Text mismatch: Expected '" + value + "', Found '" + text + "'")
  }

  /** `_verify_title`: case-insensitive containment of the expected
      title (value, else locator) in the page title. */
  function VerifyTitleHandler(p: Page, locator: string, value: string): (r: Outcome)
    ensures r.success <==> Contains(Lower(GetPageTitle(p.driver)), Lower(ValueOr(locator, value)))
  {
    var expected := ValueOr(locator, value);
    var actual := GetPageTitle(p.driver);
    if Contains(Lower(actual), Lower(expected)) then Outcome(true, "Title verified: '" + expected + "'")
    else Outcome(false, "Title mismatch: Expected '" + expected + "', Found '" + actual + "'")
  }

  /** `_verify_url`: case-sensitive containment of the expected URL
      (value, else locator) in the current URL. */
  function VerifyUrlHandler(p: Page, locator: string, value: string): (r: Outcome)
    ensures r.success <==> Contains(GetCurrentUrl(p.driver), ValueOr(locator, value))
  {
    var expected := ValueOr(locator, value);
    var actual := GetCurrentUrl(p.driver);
    if Contains(actual, expected) then Outcome(true, "URL verified: '" + expected + "'")
    else Outcome(false, "URL mismatch: Expected '" + expected + "', Found '" + actual + "'")
  }

  /** `_verify_element`: success iff the element is found. */
  function VerifyElementHandler(p: Page, locator: string): (r: Outcome)
    ensures locator == "" ==> r == Outcome(false, "No locator provided")
    ensures r.success <==> locator != "" && GetElement(p.driver, locator, None).Some?
  {
    if locator == "" then Outcome(false, "No locator provided")
    else if GetElement(p.driver, locator, None).Some? then Outcome(true, "Element verified: " + locator)
    else Outcome(false, "Element not found: " + locator)
  }

  /** `_wait`: sleep for `float(value)` seconds, or 1 second when the value is empty. */
  function WaitHandler(p: Page, value: string): (r: Outcome)
    ensures value == "" ==> r == Outcome(true, "Waited for 1 seconds")
    ensures r.success <==> value == "" || p.sleepFor(value).Ok?
  {
    if value == "" then Outcome(true, "Waited for 1 seconds")
    else match p.sleepFor(value)
      case Ok(seconds) => Outcome(true, "Waited for " + seconds + " seconds")
      case Err(m) => Outcome(false, "Failed to wait: " + m)
  }

  /** Python's message for `int(v)` on text that is not an integer. */
  /** `int(value) if value else None`: `Err` carries the ValueError's message. */
  function TimeoutOf(value: string): (r: Result<Option<int>, string>)
    ensures value == "" ==> r == Ok(None)
    ensures value != "" && ParseInt(value).None? ==> r == Err(IntError(value))
    ensures value != "" && ParseInt(value).Some? ==> r == Ok(ParseInt(value))
  {
    if value == "" then Ok(None)
    else match ParseInt(value)
      case None => Err(IntError(value))
      case Some(n) => Ok(Some(n))
  }

  /** `_wait_for_element`: wait for visibility with `int(value)` seconds
      (the default wait when the value is empty). A value that is not an
      integer raises out of the handler: its parse is outside any `try`. */
  function WaitForElementHandler(p: Page, locator: string, value: string): (r: Result<Outcome, string>)
    ensures locator == "" ==> r == Ok(Outcome(false, "No locator provided"))
    ensures locator != "" && TimeoutOf(value).Err? ==> r == Err(TimeoutOf(value).error)
    ensures r.Ok? && r.value.success <==>
              (locator != "" && TimeoutOf(value).Ok?
               && WaitForElement(p.driver, locator, TimeoutOf(value).value, "visible").Some?)
  {
    if locator == "" then Ok(Outcome(false, "No locator provided"))
    else match TimeoutOf(value)
      case Err(m) => Err(m)
      case Ok(timeout) =>
        if WaitForElement(p.driver, locator, timeout, "visible").Some? then Ok(Outcome(true, "Element found: " + locator))
        else Ok(Outcome(false, "Element not found within timeout: " + locator))
  }

  /** `_check` / `_uncheck`: click only when the selection state differs from the wanted one. */
  function SetCheckedHandler(p: Page, locator: string, want: bool): (r: Outcome)
    ensures locator == "" ==> r == Outcome(false, "No locator provided")
    ensures r.success <==>
              (locator != "" && GetElement(p.driver, locator, None).Some?
               && p.probe(GetElement(p.driver, locator, None).value, IsSelected).Ok?
               && (p.probe(GetElement(p.driver, locator, None).value, IsSelected).value == want
                   || p.act(GetElement(p.driver, locator, None).value, Click).Ok?))
  {
    if locator == "" then Outcome(false, "No locator provided")
    else match GetElement(p.driver, locator, None)
      case None => Outcome(false, "Element not found: " + locator)
      case Some(e) =>
        var failed := if want then "Failed to check: " else "Failed to uncheck: ";
        var done := if want then "Checkbox/radio checked" else "Checkbox unchecked";
        match p.probe(e, IsSelected)
        case Err(m) => Outcome(false, failed + m)
        case Ok(selected) =>
          if selected == want then Outcome(true, done)
          else match p.act(e, Click)
            case Ok(_) => Outcome(true, done)
            case Err(m) => Outcome(false, failed + m)
  }

  /** `_drag_drop`: both locators are required and both elements must be found. */
  function DragDropHandler(p: Page, locator: string, value: string): (r: Outcome)
    ensures locator == "" || value == "" ==> r == Outcome(false, "Source and target locators required")
    ensures r.success <==>
              (locator != "" && value != ""
               && GetElement(p.driver, locator, None).Some? && GetElement(p.driver, value, None).Some?
               && p.act(GetElement(p.driver, locator, None).value, DragTo(GetElement(p.driver, value, None).value)).Ok?)
  {
    if locator == "" || value == "" then Outcome(false, "Source and target locators required")
    else
      var source := GetElement(p.driver, locator, None);
      var target := GetElement(p.driver, value, None);
      if source.None? || target.None? then Outcome(false, "Source or target element not found")
      else match p.act(source.value, DragTo(target.value))
        case Ok(_) => Outcome(true, "Drag and drop completed")
        case Err(m) => Outcome(false, "Failed to drag and drop: " + m)
  }

  /** `key_map` of `_press_key`. */
  const KeyNames: set<string> := {"ENTER", "TAB", "ESC", "SPACE", "BACKSPACE", "DELETE",
                                  "ARROW_UP", "ARROW_DOWN", "ARROW_LEFT", "ARROW_RIGHT"}

  /** `key_map.get(value.upper(), value)`. */
  function KeyFor(value: string): (k: Key)
    ensures k.NamedKey? <==> Upper(value) in KeyNames
  {
    if Upper(value) in KeyNames then NamedKey(Upper(value)) else KeyText(value)
  }

  /** `_press_key`: send the key to the located element, or to the
      active element when there is no locator. */
  function PressKeyHandler(p: Page, locator: string, value: string): (r: Outcome)
    ensures locator == "" ==> (r.success <==> p.activeKeys(KeyFor(value)).Ok?)
    ensures locator != "" ==>
              (r.success <==>
                 (GetElement(p.driver, locator, None).Some?
                  && p.act(GetElement(p.driver, locator, None).value, SendKeys(KeyFor(value))).Ok?))
  {
    var key := KeyFor(value);
    if locator != "" then
      match GetElement(p.driver, locator, None)
      case None => Outcome(false, "Element not found: " + locator)
      case Some(e) =>
        match p.act(e, SendKeys(key))
        case Ok(_) => Outcome(true, "Pressed key: " + value)
        case Err(m) => Outcome(false, "Failed to press key: " + m)
    else
      match p.activeKeys(key)
      case Ok(_) => Outcome(true, "Pressed key: " + value)
      case Err(m) => Outcome(false, "Failed to press key: " + m)
  }

  /** The alert handlers: a missing alert is reported as such. */
  function AlertHandler(p: Page, op: AlertOp, done: string, failed: string): (r: Outcome)
    ensures p.alert(op) == Err(NoAlert) ==> r == Outcome(false, "No alert present")
    ensures r.success <==> p.alert(op).Ok?
  {
    match p.alert(op)
    case Ok(text) => Outcome(true, if op == ReadAlert then done + text else done)
    case Err(NoAlert) => Outcome(false, "No alert present")
    case Err(AlertFault(m)) => Outcome(false, failed + m)
  }

  /** `_switch_window`: an all-digit value is an index into the window
      handles and must be in range; anything else is a handle. */
  function SwitchWindowHandler(p: Page, value: string): (r: Outcome)
    ensures IsDigits(value) && p.handles.Ok? && DigitsValue(value) >= |p.handles.value| ==>
              r == Outcome(false, "Invalid window index: " + NatToString(DigitsValue(value)))
    ensures IsDigits(value) && p.handles.Ok? ==>
              (r.success <==> DigitsValue(value) < |p.handles.value|
                              && p.switchWindow(p.handles.value[DigitsValue(value)]).Ok?)
    ensures !IsDigits(value) ==> (r.success <==> p.handles.Ok? && p.switchWindow(value).Ok?)
  {
    match p.handles
    case Err(m) => Outcome(false, "Failed to switch window: " + m)
    case Ok(handles) =>
      if IsDigits(value) then
        var index := DigitsValue(value);
        if index < |handles| then
          match p.switchWindow(handles[index])
          case Ok(_) => Outcome(true, "Switched to window " + NatToString(index))
          case Err(m) => Outcome(false, "Failed to switch window: " + m)
        else Outcome(false, "Invalid window index: " + NatToString(index))
      else
        match p.switchWindow(value)
        case Ok(_) => Outcome(true, "Switched to window: " + value)
        case Err(m) => Outcome(false, "Failed to switch window: " + m)
  }

  /** `_execute_script`: run the value, or else the locator, as a script. */
  function ExecuteScriptHandler(p: Page, locator: string, value: string): (r: Outcome)
    ensures r.success <==> p.script(ValueOr(locator, value)).Ok?
  {
    match p.script(ValueOr(locator, value))
    case Ok(result) => Outcome(true, "Script executed successfully: " + result)
    case Err(m) => Outcome(false, "Failed to execute script: " + m)
  }

  /** Plain driver-wrapper calls reported as a boolean. */
  function Reported(ok: bool, done: string, failed: string): (r: Outcome)
    ensures r.success == ok
  {
    if ok then Outcome(true, done) else Outcome(false, failed)
  }

  /** The handler bodies, keyed by handler; `Err` is an exception that
      escapes the handler. */
  function Run(h: Handler, p: Page, locator: string, value: string): (r: Result<Outcome, string>)
    ensures r.Err? ==> h == WaitForElementVisible
  {
    match h
    case Navigate => Ok(NavigateHandler(p, locator, value))
    case Refresh => Ok(Reported(RefreshPage(p.driver), "Page refreshed", "Failed to refresh page"))
    case GoBack => Ok(Reported(SeleniumDriver.GoBack(p.driver), "Navigated back", "Failed to navigate back"))
    case GoForward => Ok(Reported(SeleniumDriver.GoForward(p.driver), "Navigated forward", "Failed to navigate forward"))
    case EnterText => Ok(EnterTextHandler(p, locator, value))
    case ClearText => Ok(OnElement(p, locator, Clear, "Text cleared", "Failed to clear text: "))
    case SelectDropdown => Ok(SelectHandler(p, locator, value))
    case ClickElement => Ok(ClickHandler(p, locator))
    case DoubleClickElement => Ok(OnElement(p, locator, DoubleClick, "Double clicked element", "Failed to double click: "))
    case RightClickElement => Ok(OnElement(p, locator, ContextClick, "Right clicked element", "Failed to right click: "))
    case VerifyText => Ok(VerifyTextHandler(p, locator, value))
    case VerifyTitle => Ok(VerifyTitleHandler(p, locator, value))
    case VerifyUrl => Ok(VerifyUrlHandler(p, locator, value))
    case VerifyElement => Ok(VerifyElementHandler(p, locator))
    case Wait => Ok(WaitHandler(p, value))
    case WaitForElementVisible => WaitForElementHandler(p, locator, value)
    case Check => Ok(SetCheckedHandler(p, locator, true))
    case Uncheck => Ok(SetCheckedHandler(p, locator, false))
    case Hover => Ok(OnElement(p, locator, MoveTo, "Hovered over element", "Failed to hover: "))
    case ScrollTo => Ok(OnElement(p, locator, ScrollIntoView, "Scrolled to element", "Failed to scroll: "))
    case DragDrop => Ok(DragDropHandler(p, locator, value))
    case PressKey => Ok(PressKeyHandler(p, locator, value))
    case SwitchToFrameHandler =>
      var reference := ValueOr(locator, value);
      Ok(Reported(SwitchToFrame(p.driver, reference), "Switched to frame: " + reference, "Failed to switch to frame"))
    case SwitchToDefault =>
      Ok(Reported(SwitchToDefaultContent(p.driver), "Switched to default content", "Failed to switch to default content"))
    case AcceptAlert => Ok(AlertHandler(p, Accept, "Alert accepted", "Failed to accept alert: "))
    case DismissAlert => Ok(AlertHandler(p, Dismiss, "Alert dismissed", "Failed to dismiss alert: "))
    case GetAlertText => Ok(AlertHandler(p, ReadAlert, "Alert text: ", "Failed to get alert text: "))
    case CloseTab =>
      Ok(match p.closeTab
         case Ok(_) => Outcome(true, "Tab closed")
         case Err(m) => Outcome(false, "Failed to close tab: " + m))
    case SwitchWindow => Ok(SwitchWindowHandler(p, value))
    case GetText => Ok(ReadElement(p, locator, ReadText, "Element text: ", "Failed to get text: "))
    case GetAttribute =>
      Ok(ReadElement(p, locator, ReadAttribute(value), "Attribute '" + value + "': ", "Failed to get attribute: "))
    case IsVisible => Ok(ProbeElement(p, locator, IsDisplayed, "Element visible: ", "Failed to check visibility: "))
    case IsEnabledHandler => Ok(ProbeElement(p, locator, IsEnabled, "Element enabled: ", "Failed to check if enabled: "))
    case IsSelectedHandler => Ok(ProbeElement(p, locator, IsSelected, "Element selected: ", "Failed to check if selected: "))
    case ExecuteScript => Ok(ExecuteScriptHandler(p, locator, value))
  }

  /** `_get_text` / `_get_attribute`: report what the element answers. */
  function ReadElement(p: Page, locator: string, action: Action, caption: string, failed: string): (r: Outcome)
    ensures locator == "" ==> r == Outcome(false, "No locator provided")
    ensures r.success <==> locator != "" && GetElement(p.driver, locator, None).Some?
                           && p.act(GetElement(p.driver, locator, None).value, action).Ok?
    ensures r.success ==> r.message == caption + p.act(GetElement(p.driver, locator, None).value, action).value
  {
    if locator == "" then Outcome(false, "No locator provided")
    else match GetElement(p.driver, locator, None)
      case None => Outcome(false, "Element not found: " + locator)
      case Some(e) =>
        match p.act(e, action)
        case Ok(v) => Outcome(true, caption + v)
        case Err(m) => Outcome(false, failed + m)
  }

  /** `execute_keyword`: normalise, look up, run; never raises. */
  function ExecuteKeyword(p: Page, keyword: string, locator: string, value: string): (r: Outcome)
    ensures Normalize(keyword) !in KeywordMap ==> r == Outcome(false, "Unknown keyword: " + Normalize(keyword))
    ensures r.success ==> Normalize(keyword) in KeywordMap
                          && Run(KeywordMap[Normalize(keyword)], p, locator, value) == Ok(r)
  {
    Dispatch(p, Normalize(keyword), locator, value)
  }

  /** Lookup and run of an already normalised keyword name `k`. */
  function Dispatch(p: Page, k: string, locator: string, value: string): (o: Outcome)
    ensures k !in KeywordMap ==> o == Outcome(false, "Unknown keyword: " + k)
    ensures k in KeywordMap && Run(KeywordMap[k], p, locator, value).Ok? ==> o == Run(KeywordMap[k], p, locator, value).value
    ensures o.success ==> k in KeywordMap && Run(KeywordMap[k], p, locator, value) == Ok(o)
  {
    if k !in KeywordMap then Outcome(false, "Unknown keyword: " + k)
    else match Run(KeywordMap[k], p, locator, value)
      case Ok(o) => o
      case Err(e) => Outcome(false, FaultMessage(k, e))
  }

  /** The message of a fault caught by `execute_keyword`. */
  function FaultMessage(k: string, e: string): (m: string)
    ensures |m| == 28 + |k| + |e|
    ensures m[25..25 + |k|] == k && m[|m| - |e|..] == e
  {
    "Error executing keyword '" + k + "': " + e
  }

  /** A name already in normal form: no surrounding whitespace and no
      lower-case letters. */
  lemma NormalizeNoop(k: string)
    requires k == [] || (!IsSpace(k[0]) && !IsSpace(k[|k| - 1]))
    requires forall i :: 0 <= i < |k| ==> !('a' <= k[i] <= 'z')
    ensures Normalize(k) == k
  {
    StripNoop(k);
    UpperNoop(k);
  }

  /** Only the normalised name matters: surrounding whitespace and
      letter case in the keyword never change the outcome. */
  lemma ExecuteNormalizes(p: Page, keyword: string, locator: string, value: string)
    ensures ExecuteKeyword(p, keyword, locator, value) == ExecuteKeyword(p, Normalize(keyword), locator, value)
  {
    NormalizeIdempotent(keyword);
    assert ExecuteKeyword(p, Normalize(keyword), locator, value) == Dispatch(p, Normalize(keyword), locator, value);
  }

  /** An unknown keyword's outcome does not depend on the browser: no handler ran. */
  lemma UnknownIgnoresBrowser(p: Page, q: Page, keyword: string, locator: string, value: string)
    requires Normalize(keyword) !in KeywordMap
    ensures ExecuteKeyword(p, keyword, locator, value) == ExecuteKeyword(q, keyword, locator, value)
  {}

  /** A fault escaping a handler becomes a failed outcome naming the keyword. */
  lemma EscapedFaultReported(p: Page, keyword: string, locator: string, value: string)
    requires Normalize(keyword) in KeywordMap
    requires Run(KeywordMap[Normalize(keyword)], p, locator, value).Err?
    ensures ExecuteKeyword(p, keyword, locator, value) ==
            Outcome(false, FaultMessage(Normalize(keyword), Run(KeywordMap[Normalize(keyword)], p, locator, value).error))
  {}

  /** The handlers that need a locator: those acting on the element
      directly, and those that read or probe it. */
  const ActingHandlers: set<Handler> := {
    EnterText, ClearText, SelectDropdown, ClickElement, DoubleClickElement, RightClickElement,
    VerifyText, VerifyElement, WaitForElementVisible}
  const ReadingHandlers: set<Handler> := {
    Check, Uncheck, Hover, ScrollTo, GetText, GetAttribute, IsVisible, IsEnabledHandler, IsSelectedHandler}
  const LocatorHandlers: set<Handler> := ActingHandlers + ReadingHandlers

  /** Each of them fails with "No locator provided" when the locator is empty. */
  lemma NoLocatorProvided(h: Handler, p: Page, value: string)
    requires h in LocatorHandlers
    ensures Run(h, p, "", value) == Ok(Outcome(false, "No locator provided"))
  {
    if h in ActingHandlers {
      ActingNeedsLocator(h, p, value);
    } else {
      ReadingNeedsLocator(h, p, value);
    }
  }

  lemma ActingNeedsLocator(h: Handler, p: Page, value: string)
    requires h in ActingHandlers
    ensures Run(h, p, "", value) == Ok(Outcome(false, "No locator provided"))
  {
    match h
    case EnterText =>
    case ClearText =>
    case SelectDropdown =>
    case ClickElement =>
    case DoubleClickElement =>
    case RightClickElement =>
    case VerifyText =>
    case VerifyElement =>
    case WaitForElementVisible =>
  }

  lemma ReadingNeedsLocator(h: Handler, p: Page, value: string)
    requires h in ReadingHandlers
    ensures Run(h, p, "", value) == Ok(Outcome(false, "No locator provided"))
  {
    match h
    case Check =>
    case Uncheck =>
    case Hover =>
    case ScrollTo =>
    case GetText =>
    case GetAttribute =>
    case IsVisible =>
    case IsEnabledHandler =>
    case IsSelectedHandler =>
  }

  /** The handlers whose argument is the value, or the locator when the value is empty. */
  const ValueFirstHandlers: set<Handler> := {Navigate, VerifyTitle, VerifyUrl, SwitchToFrameHandler, ExecuteScript}

  /** With an empty value these handlers read the locator cell instead;
      with a non-empty value the locator is ignored. */
  lemma ValueFallsBackToLocator(h: Handler, p: Page, locator: string, other: string, value: string)
    requires h in ValueFirstHandlers
    ensures Run(h, p, locator, "") == Run(h, p, "", locator)
    ensures value != "" ==> Run(h, p, locator, value) == Run(h, p, other, value)
  {
    match h
    case Navigate =>
    case VerifyTitle =>
    case VerifyUrl =>
    case SwitchToFrameHandler =>
    case ExecuteScript =>
  }

  /** A window index out of range is rejected whatever the handles are,
      for any spelling of `SWITCH_WINDOW`. */
  lemma SwitchWindowOutOfRange(p: Page, keyword: string, value: string)
    requires Normalize(keyword) == "SWITCH_WINDOW"
    requires IsDigits(value) && p.handles.Ok? && DigitsValue(value) >= |p.handles.value|
    ensures ExecuteKeyword(p, keyword, "", value) ==
            Outcome(false, "Invalid window index: " + NatToString(DigitsValue(value)))
  {
    DispatchSwitchWindow(p, value);
  }

  /** A `WAIT_FOR_ELEMENT` timeout that is not an integer escapes its
      handler and is reported by the engine's own catch. */
  lemma WaitForElementBadTimeout(p: Page, keyword: string, locator: string, value: string)
    requires Normalize(keyword) == "WAIT_FOR_ELEMENT"
    requires locator != "" && value != "" && ParseInt(value).None?
    ensures ExecuteKeyword(p, keyword, locator, value) ==
            Outcome(false, FaultMessage("WAIT_FOR_ELEMENT", IntError(value)))
  {
    assert Run(WaitForElementVisible, p, locator, value) == Err(IntError(value)) by {
      RunWaitForElement(p, locator, value);
      WaitHandlerBadTimeout(p, locator, value);
    }
    DispatchWaitFault(p, locator, value, IntError(value));
  }

  lemma WaitHandlerBadTimeout(p: Page, locator: string, value: string)
    requires locator != "" && value != "" && ParseInt(value).None?
    ensures WaitForElementHandler(p, locator, value) == Err(IntError(value))
  {}

  lemma DispatchWaitFault(p: Page, locator: string, value: string, e: string)
    requires Run(WaitForElementVisible, p, locator, value) == Err(e)
    ensures Dispatch(p, "WAIT_FOR_ELEMENT", locator, value) == Outcome(false, FaultMessage("WAIT_FOR_ELEMENT", e))
  {
    assert KeywordMap["WAIT_FOR_ELEMENT"] == WaitForElementVisible;
    DispatchFault(p, "WAIT_FOR_ELEMENT", locator, value);
  }

  lemma DispatchSwitchWindow(p: Page, value: string)
    ensures Dispatch(p, "SWITCH_WINDOW", "", value) == SwitchWindowHandler(p, value)
  {}

  /** A fault escaping the handler of a known name is reported with that name. */
  lemma DispatchFault(p: Page, k: string, locator: string, value: string)
    requires k in KeywordMap && Run(KeywordMap[k], p, locator, value).Err?
    ensures Dispatch(p, k, locator, value) ==
            Outcome(false, FaultMessage(k, Run(KeywordMap[k], p, locator, value).error))
  {}

  lemma RunWaitForElement(p: Page, locator: string, value: string)
    ensures Run(WaitForElementVisible, p, locator, value) == WaitForElementHandler(p, locator, value)
  {}
}
