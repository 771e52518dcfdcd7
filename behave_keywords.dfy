/** The Behave variant's keyword engine (`KeywordEngine`): a registry of
    keyword names, `execute` (normalise, look up, build the locator, call
    the handler with as many arguments as were given), and the handlers
    whose outcome is decided by the engine itself: the verifications, the
    data getters and stores, and the two string assertions. Every other
    handler drives the browser and is an oracle here. Exceptions are
    `Err(message)`, `message` being what `str(e)` gives. */
module BehaveKeywords {
  import opened Text
  import D = SeleniumDriver
  import P = BehavePage

  /** `Config.EXPLICIT_WAIT`, the engine's default wait in seconds. */
  const ExplicitWait: nat := 20

  /** The short wait of the presence and visibility checks. */
  const ShortWait: nat := 5

  /** What a handler expects in a position: a `(By, value)` tuple or text. */
  datatype Kind = LocatorParam | TextParam

  /** A positional parameter of a handler, after `self`: its name in the
      signature and the kind of argument it expects. */
  datatype Param = Param(name: string, kind: Kind)

  function L(name: string): Param { Param(name, LocatorParam) }
  function T(name: string): Param { Param(name, TextParam) }

  /** A handler. The ones the engine decides are named; `Driver` is any
      other handler, by its method name, with its parameters and how
      many of them have no default. */
  datatype Handler =
    | VerifyText | VerifyTitle | VerifyUrl
    | VerifyElementPresent | VerifyElementVisible | VerifyElementNotVisible
    | VerifyElementEnabled | VerifyElementDisabled | VerifyAttribute | VerifyValue
    | GetText | GetAttribute | GetValue | StoreText | StoreAttribute | StoreValue
    | AssertEquals | AssertContains
    | Driver(name: string, params: seq<Param>, required: nat)

  /** The parameters of the handler's signature, `self` left out. */
  function Params(h: Handler): seq<Param> {
    match h
    case VerifyText => [L("locator"), T("expected_text")]
    case VerifyTitle => [T("expected_title")]
    case VerifyUrl => [T("expected_url")]
    case VerifyAttribute => [L("locator"), T("attr_value")]
    case VerifyValue => [L("locator"), T("expected_value")]
    case GetAttribute => [L("locator"), T("attr_name")]
    case StoreText | StoreValue => [L("locator"), T("variable_name")]
    case StoreAttribute => [L("locator"), T("params")]
    case AssertEquals | AssertContains => [T("params")]
    case Driver(_, ps, _) => ps
    case _ => [L("locator")]
  }

  /** How many parameters have no default. */
  function Required(h: Handler): nat {
    if h.Driver? then h.required else |Params(h)|
  }

  /** The handler's method name. */
  function Name(h: Handler): string {
    match h
    case VerifyText => "verify_text"
    case VerifyTitle => "verify_title"
    case VerifyUrl => "verify_url"
    case VerifyElementPresent => "verify_element_present"
    case VerifyElementVisible => "verify_element_visible"
    case VerifyElementNotVisible => "verify_element_not_visible"
    case VerifyElementEnabled => "verify_element_enabled"
    case VerifyElementDisabled => "verify_element_disabled"
    case VerifyAttribute => "verify_attribute"
    case VerifyValue => "verify_value"
    case GetText => "get_text"
    case GetAttribute => "get_attribute"
    case GetValue => "get_value"
    case StoreText => "store_text"
    case StoreAttribute => "store_attribute"
    case StoreValue => "store_value"
    case AssertEquals => "assert_equals"
    case AssertContains => "assert_contains"
    case Driver(n, _, _) => n
  }

  function Nullary(name: string): Handler { Driver(name, [], 0) }
  function OnText(name: string, p: string): Handler { Driver(name, [T(p)], 1) }
  function OnOptionalText(name: string, p: string): Handler { Driver(name, [T(p)], 0) }
  function OnLocator(name: string): Handler { Driver(name, [L("locator")], 1) }
  function OnOptionalLocator(name: string): Handler { Driver(name, [L("locator")], 0) }
  function OnLocatorText(name: string, p: string): Handler { Driver(name, [L("locator"), T(p)], 2) }
  function OnLocatorOptionalText(name: string, p: string): Handler { Driver(name, [L("locator"), T(p)], 1) }

  /** The registry `__init__` builds, group by group, in its order. */
  const Navigation: seq<(string, Handler)> := [
    ("NAVIGATE", OnText("navigate", "url")), ("OPEN", OnText("navigate", "url")),
    ("OPEN_URL", OnText("navigate", "url")),
    ("REFRESH", Nullary("refresh")), ("GO_BACK", Nullary("go_back")), ("GO_FORWARD", Nullary("go_forward")),
    ("MAXIMIZE", Nullary("maximize_window")), ("RESIZE", OnText("resize_window", "size"))]
  const Input: seq<(string, Handler)> := [
    ("ENTER", OnLocatorText("enter_text", "text")), ("TYPE", OnLocatorText("enter_text", "text")),
    ("INPUT", OnLocatorText("enter_text", "text")), ("CLEAR", OnLocator("clear_field")),
    ("CLEAR_AND_ENTER", OnLocatorText("clear_and_enter", "text"))]
  const Clicks: seq<(string, Handler)> := [
    ("CLICK", OnLocator("click")), ("DOUBLE_CLICK", OnLocator("double_click")),
    ("RIGHT_CLICK", OnLocator("right_click")), ("JS_CLICK", OnLocator("js_click")),
    ("CLICK_IF_EXISTS", OnLocator("click_if_exists"))]
  const Dropdowns: seq<(string, Handler)> := [
    ("SELECT", OnLocatorText("select_dropdown", "value")),
    ("SELECT_BY_VALUE", OnLocatorText("select_by_value", "value")),
    ("SELECT_BY_TEXT", OnLocatorText("select_by_text", "text")),
    ("SELECT_BY_INDEX", OnLocatorText("select_by_index", "index"))]
  const Toggles: seq<(string, Handler)> := [
    ("CHECK", OnLocator("check_checkbox")), ("UNCHECK", OnLocator("uncheck_checkbox")),
    ("SELECT_RADIO", OnLocator("select_radio"))]
  const Verifications: seq<(string, Handler)> := [
    ("VERIFY_TEXT", VerifyText), ("VERIFY_TITLE", VerifyTitle), ("VERIFY_URL", VerifyUrl),
    ("VERIFY_ELEMENT_PRESENT", VerifyElementPresent), ("VERIFY_ELEMENT_VISIBLE", VerifyElementVisible),
    ("VERIFY_ELEMENT_NOT_VISIBLE", VerifyElementNotVisible), ("VERIFY_ELEMENT_ENABLED", VerifyElementEnabled),
    ("VERIFY_ELEMENT_DISABLED", VerifyElementDisabled), ("VERIFY_ATTRIBUTE", VerifyAttribute),
    ("VERIFY_VALUE", VerifyValue)]
  const Waits: seq<(string, Handler)> := [
    ("WAIT", OnText("wait", "seconds")),
    ("WAIT_FOR_ELEMENT", OnLocatorOptionalText("wait_for_element", "timeout")),
    ("WAIT_FOR_VISIBLE", OnLocatorOptionalText("wait_for_visible", "timeout")),
    ("WAIT_FOR_CLICKABLE", OnLocatorOptionalText("wait_for_clickable", "timeout")),
    ("WAIT_FOR_TEXT", OnLocatorText("wait_for_text", "text")), ("WAIT_FOR_PAGE_LOAD", Nullary("wait_for_page_load"))]
  const Keyboard: seq<(string, Handler)> := [
    ("PRESS_KEY", OnLocatorText("press_key", "key")), ("PRESS_ENTER", OnOptionalLocator("press_enter")),
    ("PRESS_TAB", OnOptionalLocator("press_tab")), ("PRESS_ESCAPE", OnOptionalLocator("press_escape"))]
  const Mouse: seq<(string, Handler)> := [
    ("HOVER", OnLocator("hover")), ("DRAG_AND_DROP", Driver("drag_and_drop", [L("source_locator"), T("target")], 2)),
    ("SCROLL_TO", OnLocator("scroll_to_element")), ("SCROLL_BY", OnText("scroll_by", "pixels")),
    ("SCROLL_TO_TOP", Nullary("scroll_to_top")), ("SCROLL_TO_BOTTOM", Nullary("scroll_to_bottom"))]
  const Windows: seq<(string, Handler)> := [
    ("SWITCH_TO_FRAME", OnText("switch_to_frame", "frame_ref")), ("SWITCH_TO_DEFAULT", Nullary("switch_to_default")),
    ("SWITCH_TO_WINDOW", OnText("switch_to_window", "window_handle")),
    ("SWITCH_TO_NEW_WINDOW", Nullary("switch_to_new_window")), ("CLOSE_WINDOW", Nullary("close_window"))]
  const Alerts: seq<(string, Handler)> := [
    ("ACCEPT_ALERT", Nullary("accept_alert")), ("DISMISS_ALERT", Nullary("dismiss_alert")),
    ("GET_ALERT_TEXT", Nullary("get_alert_text")), ("ENTER_ALERT_TEXT", OnText("enter_alert_text", "text"))]
  const DataKeywords: seq<(string, Handler)> := [
    ("GET_TEXT", GetText), ("GET_ATTRIBUTE", GetAttribute), ("GET_VALUE", GetValue),
    ("STORE_TEXT", StoreText), ("STORE_ATTRIBUTE", StoreAttribute), ("STORE_VALUE", StoreValue)]
  const Screenshots: seq<(string, Handler)> := [
    ("SCREENSHOT", OnOptionalText("take_screenshot", "name")),
    ("ELEMENT_SCREENSHOT", OnLocatorOptionalText("element_screenshot", "name"))]
  const Scripts: seq<(string, Handler)> := [
    ("EXECUTE_JS", OnText("execute_js", "script")), ("SET_VALUE_JS", OnLocatorText("set_value_js", "value"))]
  const Assertions: seq<(string, Handler)> := [
    ("ASSERT_TRUE", OnText("assert_true", "condition")), ("ASSERT_FALSE", OnText("assert_false", "condition")),
    ("ASSERT_EQUALS", AssertEquals), ("ASSERT_CONTAINS", AssertContains)]
  const Utilities: seq<(string, Handler)> := [
    ("PRINT", OnText("print_message", "message")), ("LOG", OnText("log_message", "message")),
    ("PAUSE", OnOptionalText("pause", "seconds"))]

  /** The whole registry, and each tail of it that starts at a group. */
  const FromScripts: seq<(string, Handler)> := Scripts + (Assertions + Utilities)
  const FromDataKeywords: seq<(string, Handler)> := DataKeywords + (Screenshots + FromScripts)
  const FromWaits: seq<(string, Handler)> := Waits + (Keyboard + (Mouse + (Windows + (Alerts + FromDataKeywords))))
  const FromVerifications: seq<(string, Handler)> := Verifications + FromWaits
  const FromClicks: seq<(string, Handler)> := Clicks + (Dropdowns + (Toggles + FromVerifications))
  const FromInput: seq<(string, Handler)> := Input + FromClicks
  const Registry: seq<(string, Handler)> := Navigation + FromInput

  /** The handler registered under `k`, the first one if `k` were listed twice. */
  function LookupIn(t: seq<(string, Handler)>, k: string): (r: Option<Handler>)
  {
    if t == [] then None
    else if t[0].0 == k then Some(t[0].1)
    else LookupIn(t[1..], k)
  }

  /** The names of a table, in order. */
  function Names(t: seq<(string, Handler)>): (names: seq<string>)
    ensures |names| == |t|
    ensures forall i :: 0 <= i < |t| ==> names[i] == t[i].0
  {
    if t == [] then [] else [t[0].0] + Names(t[1..])
  }

  /** A name is found exactly when it is listed. */
  lemma {:induction false} LookupInIffListed(t: seq<(string, Handler)>, k: string)
    ensures LookupIn(t, k).Some? <==> k in Names(t)
  {
    if t != [] {
      LookupInIffListed(t[1..], k);
    }
  }

  /** Looking up in two tables one after the other tries the first one first. */
  lemma {:induction false} LookupInAppend(a: seq<(string, Handler)>, b: seq<(string, Handler)>, k: string)
    ensures LookupIn(a + b, k) == if LookupIn(a, k).Some? then LookupIn(a, k) else LookupIn(b, k)
  {
    if a == [] {
      assert a + b == b;
    } else {
      assert (a + b)[1..] == a[1..] + b;
      LookupInAppend(a[1..], b, k);
    }
  }

  /** The registry has 77 names. */
  lemma RegistrySize()
    ensures |Names(Registry)| == 77
  {}

  /** The aliases of `navigate` and `enter_text` share one handler. */
  lemma Aliases()
    ensures LookupIn(Registry, "NAVIGATE") == LookupIn(Registry, "OPEN") == LookupIn(Registry, "OPEN_URL") == Some(OnText("navigate", "url"))
    ensures LookupIn(Registry, "ENTER") == LookupIn(Registry, "TYPE") == LookupIn(Registry, "INPUT") == Some(OnLocatorText("enter_text", "text"))
  {
    LookupInAppend(Navigation, FromInput, "NAVIGATE");
    LookupInAppend(Navigation, FromInput, "OPEN");
    LookupInAppend(Navigation, FromInput, "OPEN_URL");
    LookupInAppend(Navigation, FromInput, "ENTER");
    LookupInAppend(Navigation, FromInput, "TYPE");
    LookupInAppend(Navigation, FromInput, "INPUT");
    LookupInAppend(Input, FromClicks, "ENTER");
    LookupInAppend(Input, FromClicks, "TYPE");
    LookupInAppend(Input, FromClicks, "INPUT");
  }

  /** A positional argument: the locator tuple or a text. */
  datatype Arg = LocArg(locator: D.Locator) | TextArg(text: string)

  /** The arguments `execute` passes: the locator when both its type and
      its value are non-empty, then the data when it is non-empty. */
  function Args(locatorType: Option<string>, locatorValue: Option<string>, data: Option<string>): (args: seq<Arg>)
    ensures |args| <= 2
    ensures (exists l :: LocArg(l) in args) <==> Truthy(locatorType) && Truthy(locatorValue)
    ensures Truthy(locatorType) && Truthy(locatorValue) ==>
              args[0] == LocArg(P.GetLocator(locatorType.value, locatorValue.value))
    ensures (exists t :: TextArg(t) in args) <==> Truthy(data)
    ensures Truthy(data) ==> args[|args| - 1] == TextArg(data.value)
  {
    var loc := if Truthy(locatorType) && Truthy(locatorValue)
               then [LocArg(P.GetLocator(locatorType.value, locatorValue.value))] else [];
    var text := if Truthy(data) then [TextArg(data.value)] else [];
    loc + text
  }

  /** The call binds: no required parameter is left out and no argument is
      left over. */
  predicate Binds(h: Handler, n: nat)
    ensures !h.Driver? ==> (Binds(h, n) <==> n == |Params(h)|)
  {
    Required(h) <= n <= |Params(h)|
  }

  /** Every argument is of the kind its parameter expects. */
  predicate WellTyped(h: Handler, args: seq<Arg>)
    requires |args| <= |Params(h)|
    ensures !h.Driver? && |args| == 2 && WellTyped(h, args) ==> args[0].LocArg? && args[1].TextArg?
  {
    forall i :: 0 <= i < |args| ==> (args[i].LocArg? <==> Params(h)[i].kind == LocatorParam)
  }

  /** An exception `execute` lets out. The engine's own ones are named,
      with what their messages are built from; `Browser` carries the
      message of one raised by the WebDriver or a browser-driving handler. */
  datatype Fault =
    | UnknownKeyword(keyword: string)
    | Arity(handler: Handler, given: nat)
    | TupleIn
    | TupleSplit
    | Unpack(got: nat)
    | NotEqual(left: string, right: string)
    | NotContained(text: string, substring: string)
    | Browser(message: string)

  /** A parameter name as `repr` writes it. */
  function Quote(name: string): string { "'" + name + "'" }

  /** The names of the missing parameters as CPython lists them: `'a'`,
      `'a' and 'b'`, `'a', 'b', and 'c'`. */
  function MissingNames(ps: seq<Param>): string
    decreases |ps|
  {
    if |ps| == 0 then ""
    else if |ps| == 1 then Quote(ps[0].name)
    else if |ps| == 2 then Quote(ps[0].name) + " and " + Quote(ps[1].name)
    else Quote(ps[0].name) + ", " + SerialTail(ps[1..])
  }

  function SerialTail(ps: seq<Param>): string
    requires |ps| >= 1
    decreases |ps|
  {
    if |ps| == 1 then "and " + Quote(ps[0].name) else Quote(ps[0].name) + ", " + SerialTail(ps[1..])
  }

  function Plural(n: nat): string { if n == 1 then "" else "s" }

  /** The positional arguments a handler takes, counting `self`: a number,
      or `from R to P` when some parameters have a default. */
  function Takes(h: Handler): string {
    if Required(h) < |Params(h)| then
      "from " + NatToString(Required(h) + 1) + " to " + NatToString(|Params(h)| + 1) + " positional arguments"
    else NatToString(|Params(h)| + 1) + " positional argument" + Plural(|Params(h)| + 1)
  }

  /** The parameters a call with `n` arguments leaves without a value:
      those from position `n` up to the last one without a default. */
  function Unbound(h: Handler, n: nat): seq<Param> {
    if n <= Required(h) <= |Params(h)| then Params(h)[n..Required(h)] else []
  }

  /** `str(e)` of a fault: the ValueError and AssertionError texts of the
      engine, and the TypeError, AttributeError and unpacking texts as
      CPython 3.10 to 3.13 word them (the method's qualified name, `self`
      counted among the arguments). */
  function Message(f: Fault): (m: string)
    ensures f.Browser? ==> m == f.message
  {
    match f
    case UnknownKeyword(k) => "Unknown keyword: " + k
    case Arity(h, n) =>
      if n > |Params(h)| then
        "KeywordEngine." + Name(h) + "() takes " + Takes(h) + " but " + NatToString(n + 1) + " were given"
      else
        "KeywordEngine." + Name(h) + "() missing " + NatToString(|Unbound(h, n)|)
        + " required positional argument" + Plural(|Unbound(h, n)|) + ": " + MissingNames(Unbound(h, n))
    case TupleIn => "'in <string>' requires string as left operand, not tuple"
    case TupleSplit => "'tuple' object has no attribute 'split'"
    case Unpack(n) =>
      if n > 2 then "too many values to unpack (expected 2)"
      else "not enough values to unpack (expected 2, got " + NatToString(n) + ")"
    case NotEqual(a, b) => "Assertion failed: '" + a + "' != '" + b + "'"
    case NotContained(t, sub) => "Assertion failed: '" + t + "' does not contain '" + sub + "'"
    case Browser(m) => m
  }

  /** A located element: its text, whether it is enabled, its attributes. */
  datatype Element = Element(text: string, enabled: bool, attribute: string -> Option<string>)

  /** The expected condition a wait polls for. */
  datatype Condition = Present | Visible | Invisible

  /** How a wait ends: the condition met (with the element, for the
      conditions that return one), `TimeoutException`, or another error. */
  datatype Found = Got(element: Element) | TimedOut(message: string) | Raised(message: string)

  /** The browser as the engine's own handlers see it: title, current URL,
      `WebDriverWait(driver, timeout).until(condition(locator))`, and the
      message of what `find_element(*s)` raises when a text `s` stands
      where a locator tuple belongs and is unpacked into its characters. */
  datatype Page = Page(title: string, url: string, wait: (D.Locator, Condition, nat) -> Found,
                       unpacked: string -> string)

  /** What a handler returns: `None`, a flag, or a value that may be `None`. */
  datatype Returned = Nothing | Flag(flag: bool) | Value(value: Option<string>)

  /** The browser-driving handlers: the result of calling one with the
      given arguments, `Err` with the message of what it raises. */
  type Perform = (Handler, seq<Arg>) -> Result<Returned, string>

  /** The outcome of `execute` and the variables afterwards. */
  datatype Execution = Execution(result: Result<Returned, Fault>, variables: map<string, Option<string>>)

  /** An element the engine reads, or what the wait raised. */
  function Await(page: Page, l: D.Locator, c: Condition, timeout: nat): Result<Element, Fault> {
    match page.wait(l, c, timeout)
    case Got(e) => Ok(e)
    case TimedOut(m) => Err(Browser(m))
    case Raised(m) => Err(Browser(m))
  }

  /** The presence and visibility checks: a timeout is False, any other
      error propagates. */
  function Check(page: Page, l: D.Locator, c: Condition): Result<Returned, Fault> {
    match page.wait(l, c, ShortWait)
    case Got(_) => Ok(Flag(true))
    case TimedOut(_) => Ok(Flag(false))
    case Raised(m) => Err(Browser(m))
  }

  /** What one of the engine's own handlers other than the stores returns
      or raises on well-typed arguments: the verify handlers return a
      flag, the get handlers a value, the asserts `None`. */
  function Answer(page: Page, h: Handler, args: seq<Arg>): (r: Result<Returned, Fault>)
    requires !h.Driver? && !Stores(h) && |args| == |Params(h)| && WellTyped(h, args)
    ensures r.Ok? && (h.AssertEquals? || h.AssertContains?) ==> r.value == Nothing
    ensures r.Ok? && (h.GetText? || h.GetAttribute? || h.GetValue?) ==> r.value.Value?
    ensures r.Ok? && !(h.AssertEquals? || h.AssertContains? || h.GetText? || h.GetAttribute? || h.GetValue?) ==>
              r.value.Flag?
  {
    match h
    case VerifyText =>
      var e := Await(page, args[0].locator, Visible, ExplicitWait);
      if e.Err? then Err(e.error) else Ok(Flag(Contains(e.value.text, args[1].text)))
    case VerifyTitle => Ok(Flag(Contains(page.title, args[0].text)))
    case VerifyUrl => Ok(Flag(Contains(page.url, args[0].text)))
    case VerifyElementPresent => Check(page, args[0].locator, Present)
    case VerifyElementVisible => Check(page, args[0].locator, Visible)
    case VerifyElementNotVisible => Check(page, args[0].locator, Invisible)
    case VerifyElementEnabled =>
      var e := Await(page, args[0].locator, Present, ExplicitWait);
      if e.Err? then Err(e.error) else Ok(Flag(e.value.enabled))
    case VerifyElementDisabled =>
      var e := Await(page, args[0].locator, Present, ExplicitWait);
      if e.Err? then Err(e.error) else Ok(Flag(!e.value.enabled))
    case VerifyAttribute =>
      var parts := SplitOnce(args[1].text, '=');
      if |parts| != 2 then Err(Unpack(|parts|))
      else
        var e := Await(page, args[0].locator, Present, ExplicitWait);
        if e.Err? then Err(e.error) else Ok(Flag(e.value.attribute(parts[0]) == Some(parts[1])))
    case VerifyValue =>
      var e := Await(page, args[0].locator, Present, ExplicitWait);
      if e.Err? then Err(e.error) else Ok(Flag(e.value.attribute("value") == Some(args[1].text)))
    case GetText =>
      var e := Await(page, args[0].locator, Visible, ExplicitWait);
      if e.Err? then Err(e.error) else Ok(Value(Some(e.value.text)))
    case GetAttribute =>
      var e := Await(page, args[0].locator, Present, ExplicitWait);
      if e.Err? then Err(e.error) else Ok(Value(e.value.attribute(args[1].text)))
    case GetValue =>
      var e := Await(page, args[0].locator, Present, ExplicitWait);
      if e.Err? then Err(e.error) else Ok(Value(e.value.attribute("value")))
    case AssertEquals =>
      var parts := SplitOnce(args[0].text, ',');
      if |parts| != 2 then Err(Unpack(|parts|))
      else if parts[0] == parts[1] then Ok(Nothing)
      else Err(NotEqual(parts[0], parts[1]))
    case AssertContains =>
      var parts := SplitOnce(args[0].text, ',');
      if |parts| != 2 then Err(Unpack(|parts|))
      else if Contains(parts[0], parts[1]) then Ok(Nothing)
      else Err(NotContained(parts[0], parts[1]))
  }

  /** A store handler on well-typed arguments: the name it writes and the
      value, or what it raises before writing. */
  function Stored(page: Page, h: Handler, args: seq<Arg>): (r: Result<(string, Option<string>), Fault>)
    requires Stores(h) && |args| == 2 && args[0].LocArg? && args[1].TextArg?
    ensures r.Ok? ==> r.value.0 == StoredName(h, args[1].text)
  {
    match h
    case StoreText =>
      var e := Await(page, args[0].locator, Visible, ExplicitWait);
      if e.Err? then Err(e.error) else Ok((args[1].text, Some(e.value.text)))
    case StoreAttribute =>
      var parts := Split(args[1].text, ',');
      if |parts| != 2 then Err(Unpack(|parts|))
      else
        var e := Await(page, args[0].locator, Present, ExplicitWait);
        if e.Err? then Err(e.error) else Ok((parts[1], e.value.attribute(parts[0])))
    case StoreValue =>
      var e := Await(page, args[0].locator, Present, ExplicitWait);
      if e.Err? then Err(e.error) else Ok((args[1].text, e.value.attribute("value")))
  }

  /** The name a store handler writes, given its data: the data itself,
      or for `store_attribute` what follows the comma. */
  function StoredName(h: Handler, data: string): string {
    var parts := Split(data, ',');
    if h.StoreAttribute? && |parts| == 2 then parts[1] else data
  }

  /** A handler that stores into the variables. */
  predicate Stores(h: Handler)
    ensures Stores(h) ==> !h.Driver? && |Params(h)| == 2 && Params(h)[0].kind == LocatorParam && Params(h)[1].kind == TextParam
  {
    h.StoreText? || h.StoreAttribute? || h.StoreValue?
  }

  /** What one of the engine's own handlers raises when it gets the other
      kind of argument (as `execute` builds them, only a one-parameter
      handler can): a tuple on the left of `in` in the title and URL
      checks, a tuple asked for `split` in the two assertions, and
      otherwise the lookup of a text as if it were a locator. */
  function Misapplied(page: Page, h: Handler, args: seq<Arg>): Fault {
    match h
    case VerifyTitle | VerifyUrl => TupleIn
    case AssertEquals | AssertContains => TupleSplit
    case _ => Browser(page.unpacked(if |args| > 0 && args[0].TextArg? then args[0].text else ""))
  }

  /** A registry as `__init__` lays it out: names with their handlers. */
  type Table = seq<(string, Handler)>

  /** Calling handler `h` with `args` on the variables `vars`: a call that
      does not bind is a TypeError, a browser-driving handler answers for
      itself, one of the engine's own handlers given the wrong kind of
      argument fails as `Misapplied` says, and only a store that succeeds
      writes a variable, the one its data names. */
  function Call(vars: map<string, Option<string>>, page: Page, perform: Perform, h: Handler, args: seq<Arg>): (r: Execution)
    ensures !Stores(h) || r.result.Err? ==> r.variables == vars
    ensures r.variables != vars ==>
              |args| == 2 && args[1].TextArg? && StoredName(h, args[1].text) in r.variables
              && r.variables == vars[StoredName(h, args[1].text) := r.variables[StoredName(h, args[1].text)]]
  {
    if !Binds(h, |args|) then Execution(Err(Arity(h, |args|)), vars)
    else if h.Driver? then
      var raised := perform(h, args);
      Execution(if raised.Ok? then Ok(raised.value) else Err(Browser(raised.error)), vars)
    else if !WellTyped(h, args) then Execution(Err(Misapplied(page, h, args)), vars)
    else if Stores(h) then
      match Stored(page, h, args)
      case Ok((name, v)) => Execution(Ok(Nothing), vars[name := v])
      case Err(f) => Execution(Err(f), vars)
    else Execution(Answer(page, h, args), vars)
  }

  /** `execute(keyword, locator_type, locator_value, data)` with the
      registry `keywords` on the variables `vars`: the keyword upper-cased
      and trimmed, an unknown one raising before any handler runs, the
      handler called with the arguments `Args` builds, whatever it raises
      raised again. */
  function Executed(keywords: Table, vars: map<string, Option<string>>, page: Page, perform: Perform,
                    keyword: string, locatorType: Option<string>, locatorValue: Option<string>,
                    data: Option<string>): (r: Execution)
    ensures LookupIn(keywords, Strip(Upper(keyword))).None? ==>
              r == Execution(Err(UnknownKeyword(Strip(Upper(keyword)))), vars)
    ensures LookupIn(keywords, Strip(Upper(keyword))).Some? ==>
              r == Call(vars, page, perform, LookupIn(keywords, Strip(Upper(keyword))).value, Args(locatorType, locatorValue, data))
  {
    var k := Strip(Upper(keyword));
    match LookupIn(keywords, k)
    case None => Execution(Err(UnknownKeyword(k)), vars)
    case Some(h) => Call(vars, page, perform, h, Args(locatorType, locatorValue, data))
  }

  /** `execute` ignores case and surrounding blanks of the keyword. */
  lemma NormalisedKeyword(keywords: Table, vars: map<string, Option<string>>, page: Page, perform: Perform,
                          keyword: string, locatorType: Option<string>, locatorValue: Option<string>,
                          data: Option<string>)
    ensures Executed(keywords, vars, page, perform, Strip(Upper(keyword)), locatorType, locatorValue, data)
         == Executed(keywords, vars, page, perform, keyword, locatorType, locatorValue, data)
  {
    var k := Strip(Upper(keyword));
    StripUpperCommute(Upper(keyword));
    UpperIdempotent(keyword);
    StripIdempotent(Upper(keyword));
    assert Strip(Upper(k)) == k;
  }

  /** An unknown keyword is refused before the browser is touched: the
      answer is the same whatever the page and the handlers would do, and
      its message names the normalised keyword. */
  lemma UnknownTouchesNothing(keywords: Table, vars: map<string, Option<string>>, page: Page, page': Page,
                              perform: Perform, perform': Perform, keyword: string,
                              locatorType: Option<string>, locatorValue: Option<string>, data: Option<string>)
    requires Strip(Upper(keyword)) !in Names(keywords)
    ensures Executed(keywords, vars, page, perform, keyword, locatorType, locatorValue, data)
         == Executed(keywords, vars, page', perform', keyword, locatorType, locatorValue, data)
         == Execution(Err(UnknownKeyword(Strip(Upper(keyword)))), vars)
    ensures Message(UnknownKeyword(Strip(Upper(keyword)))) == "Unknown keyword: " + Strip(Upper(keyword))
  {
    LookupInIffListed(keywords, Strip(Upper(keyword)));
  }

  /** A browser-driving handler gets exactly the built arguments, and what
      it returns or raises is what `execute` returns or raises, with the
      same message; the variables stay as they were. */
  lemma DriverPassThrough(keywords: Table, vars: map<string, Option<string>>, page: Page, perform: Perform,
                          keyword: string, locatorType: Option<string>, locatorValue: Option<string>,
                          data: Option<string>, h: Handler)
    requires LookupIn(keywords, Strip(Upper(keyword))) == Some(h) && h.Driver?
    requires Binds(h, |Args(locatorType, locatorValue, data)|)
    ensures var r := Executed(keywords, vars, page, perform, keyword, locatorType, locatorValue, data);
            var p := perform(h, Args(locatorType, locatorValue, data));
            r.variables == vars
            && (p.Ok? <==> r.result.Ok?)
            && (p.Ok? ==> r.result.value == p.value)
            && (p.Err? ==> Message(r.result.error) == p.error)
  {}

  /** A call with more arguments than the signature has is told the
      count it takes: a range exactly when some parameter has a default. */
  lemma TooManyWording(h: Handler)
    requires Required(h) <= |Params(h)|
    ensures Takes(h)[..5] == "from " <==> Required(h) < |Params(h)|
  {
    if Required(h) == |Params(h)| {
      var t := NatToString(|Params(h)| + 1);
      assert Takes(h) == t + " positional argument" + Plural(|Params(h)| + 1);
      assert Takes(h)[0] == t[0] && IsDigit(t[0]);
    }
  }

  /** A call with too few arguments is told the parameters it leaves
      unfilled: in order, those from the first one without an argument to
      the last one without a default, at least one of them. */
  lemma TooFewWording(h: Handler, n: nat)
    requires !Binds(h, n) && n <= |Params(h)| && Required(h) <= |Params(h)|
    ensures 1 <= |Unbound(h, n)| == Required(h) - n
    ensures forall i :: 0 <= i < |Unbound(h, n)| ==> Unbound(h, n)[i] == Params(h)[n + i]
  {}

  /** The four TypeErrors below, as CPython words them. */
  lemma NavigateText()
    ensures Message(Arity(OnText("navigate", "url"), 0))
         == "KeywordEngine." + "navigate" + "() missing " + "1" + " required positional argument" + ": " + "'url'"
  {
    assert NatToString(1) == "1";
    assert Unbound(OnText("navigate", "url"), 0) == [T("url")];
  }

  lemma EnterTextText()
    ensures Message(Arity(OnLocatorText("enter_text", "text"), 0))
         == "KeywordEngine." + "enter_text" + "() missing " + "2" + " required positional argument" + "s"
            + ": " + ("'locator'" + " and " + "'text'")
  {
    var h := OnLocatorText("enter_text", "text");
    assert Params(h) == [L("locator"), T("text")] && Required(h) == 2 && Name(h) == "enter_text";
    assert Unbound(h, 0) == Params(h);
    assert MissingNames(Unbound(h, 0)) == "'locator'" + " and " + "'text'";
    assert NatToString(2) == "2" && Plural(2) == "s";
  }

  lemma RefreshText()
    ensures Message(Arity(Nullary("refresh"), 1))
         == "KeywordEngine." + "refresh" + "() takes " + "1" + " positional argument" + " but " + "2" + " were given"
  {
    var h := Nullary("refresh");
    assert |Params(h)| == 0 && Required(h) == 0 && Name(h) == "refresh";
    assert NatToString(1) == "1" && NatToString(2) == "2" && Plural(1) == "";
    assert Takes(h) == "1" + " positional argument";
  }

  lemma PressEnterText()
    ensures Message(Arity(OnOptionalLocator("press_enter"), 2))
         == "KeywordEngine." + "press_enter" + "() takes " + "from " + "1" + " to " + "2" + " positional arguments"
            + " but " + "3" + " were given"
  {
    var h := OnOptionalLocator("press_enter");
    assert |Params(h)| == 1 && Required(h) == 0 && Name(h) == "press_enter";
    assert NatToString(1) == "1" && NatToString(2) == "2" && NatToString(3) == "3";
    assert Takes(h) == "from " + "1" + " to " + "2" + " positional arguments";
  }

  /** `NAVIGATE` with neither a locator nor data calls `navigate()`, which
      raises "KeywordEngine.navigate() missing 1 required positional
      argument: 'url'" (`NavigateText`). */
  lemma NavigateWithoutUrl(keywords: Table, vars: map<string, Option<string>>, page: Page, perform: Perform,
                           keyword: string)
    requires LookupIn(keywords, Strip(Upper(keyword))) == Some(OnText("navigate", "url"))
    ensures Executed(keywords, vars, page, perform, keyword, None, None, None)
         == Execution(Err(Arity(OnText("navigate", "url"), 0)), vars)
  {
    assert Args(None, None, None) == [];
  }

  /** `ENTER` with neither a locator nor data misses both parameters:
      "KeywordEngine.enter_text() missing 2 required positional arguments:
      'locator' and 'text'" (`EnterTextText`). */
  lemma EnterWithoutArguments(keywords: Table, vars: map<string, Option<string>>, page: Page, perform: Perform,
                              keyword: string)
    requires LookupIn(keywords, Strip(Upper(keyword))) == Some(OnLocatorText("enter_text", "text"))
    ensures Executed(keywords, vars, page, perform, keyword, None, None, None)
         == Execution(Err(Arity(OnLocatorText("enter_text", "text"), 0)), vars)
  {
    assert Args(None, None, None) == [];
  }

  /** A keyword whose handler takes no parameter, given a data cell, calls
      it with one argument too many: `REFRESH` with data calls
      `refresh(data)`, "KeywordEngine.refresh() takes 1 positional argument
      but 2 were given" (`RefreshText`). */
  lemma NullaryWithData(keywords: Table, vars: map<string, Option<string>>, page: Page, perform: Perform,
                        keyword: string, name: string, data: string)
    requires LookupIn(keywords, Strip(Upper(keyword))) == Some(Nullary(name)) && data != ""
    ensures Executed(keywords, vars, page, perform, keyword, None, None, Some(data))
         == Execution(Err(Arity(Nullary(name), 1)), vars)
  {
    assert Truthy(Some(data)) && !Truthy(None);
    assert |Args(None, None, Some(data))| == 1;
  }

  /** `PRESS_ENTER` with a locator and data: its one parameter has a
      default, so the count is a range: "KeywordEngine.press_enter() takes
      from 1 to 2 positional arguments but 3 were given" (`PressEnterText`). */
  lemma PressEnterWithBoth(keywords: Table, vars: map<string, Option<string>>, page: Page, perform: Perform,
                           keyword: string, locatorType: string, locatorValue: string, data: string)
    requires LookupIn(keywords, Strip(Upper(keyword))) == Some(OnOptionalLocator("press_enter"))
    requires locatorType != "" && locatorValue != "" && data != ""
    ensures Executed(keywords, vars, page, perform, keyword, Some(locatorType), Some(locatorValue), Some(data))
         == Execution(Err(Arity(OnOptionalLocator("press_enter"), 2)), vars)
  {
    assert Truthy(Some(locatorType)) && Truthy(Some(locatorValue)) && Truthy(Some(data));
    assert |Args(Some(locatorType), Some(locatorValue), Some(data))| == 2;
  }

  /** As `execute` builds the arguments, a handler can only get the wrong
      kind of argument when it takes exactly one. */
  lemma MisappliedAlone(h: Handler, locatorType: Option<string>, locatorValue: Option<string>, data: Option<string>)
    requires var args := Args(locatorType, locatorValue, data);
             !h.Driver? && Binds(h, |args|) && !WellTyped(h, args)
    ensures |Args(locatorType, locatorValue, data)| == 1
  {}

  /** `VERIFY_TITLE` with a locator and no data: the call binds, and the
      handler fails on a tuple on the left of `in`. */
  lemma TitleGivenLocator(keywords: Table, vars: map<string, Option<string>>, page: Page, perform: Perform,
                          keyword: string, locatorType: string, locatorValue: string)
    requires LookupIn(keywords, Strip(Upper(keyword))) == Some(VerifyTitle)
    requires locatorType != "" && locatorValue != ""
    ensures Executed(keywords, vars, page, perform, keyword, Some(locatorType), Some(locatorValue), None)
         == Execution(Err(TupleIn), vars)
    ensures Message(TupleIn) == "'in <string>' requires string as left operand, not tuple"
  {
    assert Truthy(Some(locatorType)) && Truthy(Some(locatorValue)) && !Truthy(None);
    assert Args(Some(locatorType), Some(locatorValue), None) == [LocArg(P.GetLocator(locatorType, locatorValue))];
  }

  /** `ASSERT_EQUALS` with a locator and no data: the call binds, and the
      handler fails asking a tuple for `split`. */
  lemma AssertGivenLocator(keywords: Table, vars: map<string, Option<string>>, page: Page, perform: Perform,
                           keyword: string, locatorType: string, locatorValue: string)
    requires LookupIn(keywords, Strip(Upper(keyword))) == Some(AssertEquals)
    requires locatorType != "" && locatorValue != ""
    ensures Executed(keywords, vars, page, perform, keyword, Some(locatorType), Some(locatorValue), None)
         == Execution(Err(TupleSplit), vars)
    ensures Message(TupleSplit) == "'tuple' object has no attribute 'split'"
  {
    assert Truthy(Some(locatorType)) && Truthy(Some(locatorValue)) && !Truthy(None);
    assert Args(Some(locatorType), Some(locatorValue), None) == [LocArg(P.GetLocator(locatorType, locatorValue))];
  }

  /** `VERIFY_ELEMENT_PRESENT` with only data: the call binds, and the
      handler re-raises what the WebDriver raises on the text taken for a
      locator (a TypeError here is not a timeout, so it is not `False`). */
  lemma PresenceGivenText(keywords: Table, vars: map<string, Option<string>>, page: Page, perform: Perform,
                          keyword: string, data: string)
    requires LookupIn(keywords, Strip(Upper(keyword))) == Some(VerifyElementPresent) && data != ""
    ensures Executed(keywords, vars, page, perform, keyword, None, None, Some(data))
         == Execution(Err(Browser(page.unpacked(data))), vars)
  {
    assert Truthy(Some(data)) && !Truthy(None);
    assert Args(None, None, Some(data)) == [TextArg(data)];
  }

  /** Only the store handlers write the variables; a store writes one
      name, taken from the data, and keeps every other. */
  lemma VariablesFrame(keywords: Table, vars: map<string, Option<string>>, page: Page, perform: Perform,
                       keyword: string, locatorType: Option<string>, locatorValue: Option<string>,
                       data: Option<string>)
    ensures var r := Executed(keywords, vars, page, perform, keyword, locatorType, locatorValue, data);
            var h := LookupIn(keywords, Strip(Upper(keyword)));
            (h.None? || !Stores(h.value) || r.result.Err? ==> r.variables == vars)
            && (r.variables != vars ==>
                  (Truthy(data) && StoredName(h.value, data.value) in r.variables
                   && r.variables == vars[StoredName(h.value, data.value) := r.variables[StoredName(h.value, data.value)]]))
  {
    var args := Args(locatorType, locatorValue, data);
    if |args| == 2 {
      assert args[1] == TextArg(data.value);
    }
  }

  /** A keyword naming `store_text`, with a locator and a variable name,
      sets exactly that variable to the element's text, which
      `get_variable` then returns. */
  lemma StoreTextThenGet(keywords: Table, vars: map<string, Option<string>>, page: Page, perform: Perform,
                         keyword: string, locatorType: string, locatorValue: string, name: string, other: string)
    requires LookupIn(keywords, Strip(Upper(keyword))) == Some(StoreText)
    requires locatorType != "" && locatorValue != "" && name != ""
    requires page.wait(P.GetLocator(locatorType, locatorValue), Visible, ExplicitWait).Got?
    ensures var r := Executed(keywords, vars, page, perform, keyword, Some(locatorType), Some(locatorValue), Some(name));
            var e := page.wait(P.GetLocator(locatorType, locatorValue), Visible, ExplicitWait).element;
            r.result == Ok(Nothing) && Variable(r.variables, name) == Some(e.text)
            && (other != name ==> Variable(r.variables, other) == Variable(vars, other))
  {
    assert Args(Some(locatorType), Some(locatorValue), Some(name))
        == [LocArg(P.GetLocator(locatorType, locatorValue)), TextArg(name)];
  }

  /** A verification that does not hold is a `False` result, not an
      exception: `VERIFY_TITLE` answers whether the title contains the
      expected text. */
  lemma VerifyTitleIsContainment(keywords: Table, vars: map<string, Option<string>>, page: Page,
                                 perform: Perform, keyword: string, expected: string)
    requires LookupIn(keywords, Strip(Upper(keyword))) == Some(VerifyTitle) && expected != ""
    ensures Executed(keywords, vars, page, perform, keyword, None, None, Some(expected))
         == Execution(Ok(Flag(Contains(page.title, expected))), vars)
  {
    assert Truthy(Some(expected)) && !Truthy(None);
    assert Args(None, None, Some(expected)) == [TextArg(expected)];
  }

  /** `ASSERT_EQUALS` with `a,b`: nothing when the two halves (split at the
      first comma) are equal, otherwise the AssertionError naming both. */
  lemma AssertEqualsHalves(keywords: Table, vars: map<string, Option<string>>, page: Page,
                           perform: Perform, keyword: string, a: string, b: string)
    requires LookupIn(keywords, Strip(Upper(keyword))) == Some(AssertEquals) && ',' !in a
    ensures var r := Executed(keywords, vars, page, perform, keyword, None, None, Some(a + [','] + b));
            r.variables == vars
            && (a == b ==> r.result == Ok(Nothing))
            && (a != b ==> r.result == Err(NotEqual(a, b)))
  {
    var d := a + [','] + b;
    assert Truthy(Some(d)) && !Truthy(None);
    assert Args(None, None, Some(d)) == [TextArg(d)];
    SplitOnceJoined(a, ',', b);
    assert Answer(page, AssertEquals, [TextArg(d)]) == if a == b then Ok(Nothing) else Err(NotEqual(a, b));
  }

  /** `get_variable(name)`: the stored value, `None` for a name never set. */
  function Variable(vars: map<string, Option<string>>, name: string): (v: Option<string>)
    ensures name !in vars ==> v == None
    ensures name in vars ==> v == vars[name]
  {
    if name in vars then vars[name] else None
  }

  /** The engine: the registry its constructor builds and the variables
      the store keywords and `set_variable` fill. */
  class KeywordEngine {
    const keywords: Table
    var variables: map<string, Option<string>>
    const timeout: nat

    constructor ()
      ensures keywords == Registry && variables == map[] && timeout == ExplicitWait
    {
      keywords := Registry;
      variables := map[];
      timeout := ExplicitWait;
    }

    /** `execute(keyword, locator_type, locator_value, data)`. */
    method Execute(page: Page, perform: Perform, keyword: string,
                   locatorType: Option<string>, locatorValue: Option<string>, data: Option<string>)
      returns (r: Result<Returned, Fault>)
      modifies this
      ensures var x := Executed(keywords, old(variables), page, perform, keyword, locatorType, locatorValue, data);
              r == x.result && variables == x.variables
    {
      var x := Executed(keywords, variables, page, perform, keyword, locatorType, locatorValue, data);
      variables := x.variables;
      r := x.result;
    }

    /** `get_variable(name)`. */
    method GetVariable(name: string) returns (v: Option<string>)
      ensures v == Variable(variables, name)
    {
      v := if name in variables then variables[name] else None;
    }

    /** `set_variable(name, value)`. */
    method SetVariable(name: string, value: Option<string>)
      modifies this
      ensures variables == old(variables)[name := value]
      ensures Variable(variables, name) == value
    {
      variables := variables[name := value];
    }

    /** `list_keywords()`: the registered names in registration order;
        exactly those are found. */
    method ListKeywords() returns (names: seq<string>)
      ensures names == Names(keywords)
      ensures forall k :: k in names <==> LookupIn(keywords, k).Some?
    {
      names := Names(keywords);
      forall k ensures k in names <==> LookupIn(keywords, k).Some? {
        LookupInIffListed(keywords, k);
      }
    }
  }
}
