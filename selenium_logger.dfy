/** The Selenium variant's logger: the shortening of long locators and
    values in a step's log lines, and the single shared logger instance. */
module SeleniumLogger {
  import opened Text

  /** `s` itself when at most `limit` characters long, otherwise its first
      `limit - 3` characters followed by "...". */
  function Truncate(s: string, limit: nat): (r: string)
    requires limit >= 3
    ensures |r| <= limit
    ensures |s| <= limit ==> r == s
    ensures |s| > limit ==> r == s[..limit - 3] + "..." && |r| == limit
  {
    if |s| <= limit then s else s[..limit - 3] + "..."
  }

  /** How a locator is shown: at most 50 characters. */
  function DisplayLocator(locator: string): (r: string)
    ensures |r| <= 50
    ensures |locator| <= 50 ==> r == locator
    ensures |locator| > 50 ==> r == locator[..47] + "..."
  {
    Truncate(locator, 50)
  }

  /** How a value is shown: at most 30 characters. */
  function DisplayValue(value: string): (r: string)
    ensures |r| <= 30
    ensures |value| <= 30 ==> r == value
    ensures |value| > 30 ==> r == value[..27] + "..."
  {
    Truncate(value, 30)
  }

  /** Shortening twice changes nothing more than shortening once. */
  lemma TruncateIdempotent(s: string, limit: nat)
    requires limit >= 3
    ensures Truncate(Truncate(s, limit), limit) == Truncate(s, limit)
  {}

  /** The lines `keyword_execution` logs for one step: the Locator and
      Value lines only for a non-empty locator and value. */
  function KeywordLines(step: nat, keyword: string, field: string, locator: string, value: string): (lines: seq<string>)
    ensures |lines| == 2 + (if locator != "" then 1 else 0) + (if value != "" then 1 else 0)
  {
    ["  Step " + NatToString(step) + ": " + keyword, "    Field: " + field]
    + (if locator != "" then ["    Locator: " + DisplayLocator(locator)] else [])
    + (if value != "" then ["    Value: " + DisplayValue(value)] else [])
  }

  /** A line is a Locator line when it starts with that label. */
  predicate IsLocatorLine(line: string)
  {
    StartsWith(line, "    Locator: ")
  }

  /** A Locator line is logged exactly when the locator is non-empty, and it
      then shows the shortened locator. */
  lemma LocatorLineIffLocator(step: nat, keyword: string, field: string, locator: string, value: string)
    ensures (exists i :: 0 <= i < |KeywordLines(step, keyword, field, locator, value)|
               && IsLocatorLine(KeywordLines(step, keyword, field, locator, value)[i]))
            <==> locator != ""
    ensures locator != "" ==> KeywordLines(step, keyword, field, locator, value)[2] == "    Locator: " + DisplayLocator(locator)
  {
    var lines := KeywordLines(step, keyword, field, locator, value);
    assert !IsLocatorLine(lines[0]) by { assert lines[0][4] != "    Locator: "[4]; }
    assert !IsLocatorLine(lines[1]) by { assert lines[1][4] != "    Locator: "[4]; }
    if locator != "" {
      assert IsLocatorLine(lines[2]);
    } else if value != "" {
      assert !IsLocatorLine(lines[2]) by { assert lines[2][4] != "    Locator: "[4]; }
    }
  }

  /** The logger: its handler setup runs once, when it is first created. */
  class Logger {
    var initialized: bool
    var setups: nat

    constructor ()
      ensures !initialized && setups == 0
    {
      initialized := false;
      setups := 0;
    }

    /** `__init__`: configures the handlers unless already done. */
    method Init()
      modifies this
      ensures initialized
      ensures setups == if old(initialized) then old(setups) else old(setups) + 1
    {
      if initialized {
        return;
      }
      initialized := true;
      setups := setups + 1;
    }
  }

  /** The class-level `_instance` slot of `Logger`. */
  class LoggerClass {
    var instance: Logger?

    ghost predicate Valid()
      reads this, instance
    {
      instance != null ==> instance.initialized && instance.setups == 1
    }

    constructor ()
      ensures instance == null && Valid()
    {
      instance := null;
    }

    /** `Logger()`: `__new__` then `__init__`. Every call returns the same
        instance, whose handlers have been set up exactly once. */
    method Create() returns (l: Logger)
      requires Valid()
      modifies this, instance
      ensures Valid() && instance == l
      ensures old(instance) != null ==> l == old(instance)
      ensures l.initialized && l.setups == 1
    {
      if instance == null {
        instance := new Logger();
      }
      l := instance;
      l.Init();
    }
  }
}
