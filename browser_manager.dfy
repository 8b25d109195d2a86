/**
 * src/core/browser_manager.py: the browser lifecycle. A BrowserManager is
 * either without a driver (and without a wait) or has both; starting sets
 * them, closing clears them, and every page operation first checks that a
 * driver is present.
 */
module BrowserManagement {
  import opened Exceptions
  import opened Records
  import opened Port
  import Text
  import opened Config

  // ---------------------------------------------------------------------
  // Launch options.

  /** A command-line switch given to the browser. */
  datatype Argument =
    | WindowSize(width: int, height: int)
    | Width(w: int)
    | Height(h: int)
    | Headless
    | DisableGpu
    | DisableImages
    | UserAgentArg(agent: string)
    | NoSandbox
    | DisableDevShmUsage
    | DisableAutomationControlled

  /** The switch as it is passed on the command line. */
  function ArgumentText(a: Argument): string {
    match a
    case WindowSize(w, h) => "--window-size=" + IntToString(w) + "," + IntToString(h)
    case Width(w) => "--width=" + IntToString(w)
    case Height(h) => "--height=" + IntToString(h)
    case Headless => "--headless"
    case DisableGpu => "--disable-gpu"
    case DisableImages => "--disable-images"
    case UserAgentArg(ua) => "--user-agent=" + ua
    case NoSandbox => "--no-sandbox"
    case DisableDevShmUsage => "--disable-dev-shm-usage"
    case DisableAutomationControlled => "--disable-blink-features=AutomationControlled"
  }

  datatype Options =
    | ChromeOptions(arguments: seq<Argument>, experimental: seq<Entry>)
    | FirefoxOptions(arguments: seq<Argument>, preferences: seq<Entry>)

  const StabilityArguments: seq<Argument> := [NoSandbox, DisableDevShmUsage, DisableAutomationControlled]

  /** `config.user_agent` when it is truthy. */
  function UserAgent(c: BrowserConfig): Option<string> {
    if c.userAgent.Some? && c.userAgent.value != "" then c.userAgent else None
  }

  predicate HasUserAgentArgument(args: seq<Argument>) {
    exists i :: 0 <= i < |args| && args[i].UserAgentArg?
  }

  /** `_start_chrome()`'s switches, in the order they are added. */
  function ChromeArguments(c: BrowserConfig): seq<Argument> {
    [WindowSize(c.windowSize.0, c.windowSize.1)]
    + (if c.headless then [Headless] else [])
    + (if c.disableGpu then [DisableGpu] else [])
    + (if c.disableImages then [DisableImages] else [])
    + (if UserAgent(c).Some? then [UserAgentArg(UserAgent(c).value)] else [])
    + StabilityArguments
  }

  /** The window size comes first and the three stability switches last. */
  lemma ChromeArgumentsOrder(c: BrowserConfig)
    ensures |ChromeArguments(c)| >= 4 && ChromeArguments(c)[0] == WindowSize(c.windowSize.0, c.windowSize.1)
    ensures ChromeArguments(c)[|ChromeArguments(c)| - 3..] == StabilityArguments
  {
    var args := ChromeArguments(c);
    var front := args[..|args| - 3];
    assert args == front + StabilityArguments;
  }

  /** Each optional switch is present exactly when its setting asks for it. */
  lemma ChromeSwitchesChosen(c: BrowserConfig)
    ensures (Headless in ChromeArguments(c)) <==> c.headless
    ensures (DisableGpu in ChromeArguments(c)) <==> c.disableGpu
    ensures (DisableImages in ChromeArguments(c)) <==> c.disableImages
  {
  }

  /** The user-agent switch is present exactly when a user agent is set,
      and then carries it. */
  lemma ChromeUserAgentChosen(c: BrowserConfig)
    ensures UserAgent(c).Some? ==> UserAgentArg(UserAgent(c).value) in ChromeArguments(c)
    ensures HasUserAgentArgument(ChromeArguments(c)) <==> UserAgent(c).Some?
  {
    var agent := if UserAgent(c).Some? then [UserAgentArg(UserAgent(c).value)] else [];
    var args := ChromeArguments(c);
    assert HasUserAgentArgument(args) ==> UserAgent(c).Some? by {
      if HasUserAgentArgument(args) {
        var i :| 0 <= i < |args| && args[i].UserAgentArg?;
        assert args[i] in agent;
      }
    }
    assert UserAgent(c).Some? ==> args[|args| - 4].UserAgentArg?;
  }

  /** `_start_chrome()`'s experimental options: the image preference only
      when images are disabled, and the automation switches always. */
  function ChromeExperimentalOptions(disableImages: bool): (e: seq<Entry>)
    ensures Get(e, "prefs").Some? <==> disableImages
    ensures Get(e, "excludeSwitches") == Some(List([Str("enable-automation")]))
    ensures Get(e, "useAutomationExtension") == Some(Bool(false))
  {
    var prefs := if disableImages
      then [Entry("prefs", Dict([Entry("profile.managed_default_content_settings.images", Num(2))]))]
      else [];
    ChromeExperimental(prefs, disableImages);
    prefs + [Entry("excludeSwitches", List([Str("enable-automation")])),
             Entry("useAutomationExtension", Bool(false))]
  }

  function ChromeOptionsFor(c: BrowserConfig): (o: Options)
    ensures o.ChromeOptions?
  {
    ChromeOptions(ChromeArguments(c), ChromeExperimentalOptions(c.disableImages))
  }

  lemma ChromeExperimental(prefs: Record, disableImages: bool)
    requires prefs == if disableImages
      then [Entry("prefs", Dict([Entry("profile.managed_default_content_settings.images", Num(2))]))]
      else []
    ensures var e := prefs + [Entry("excludeSwitches", List([Str("enable-automation")])),
                              Entry("useAutomationExtension", Bool(false))];
      && (Get(e, "prefs").Some? <==> disableImages)
      && Get(e, "excludeSwitches") == Some(List([Str("enable-automation")]))
      && Get(e, "useAutomationExtension") == Some(Bool(false))
  {
    var e := prefs + [Entry("excludeSwitches", List([Str("enable-automation")])),
                      Entry("useAutomationExtension", Bool(false))];
    assert UniqueKeys(e);
    GetAt(e, |e| - 2);
    GetAt(e, |e| - 1);
    if disableImages {
      GetAt(e, 0);
    } else {
      GetKeys(e, "prefs");
    }
  }

  /** `_start_firefox()`'s options. */
  function FirefoxOptionsFor(c: BrowserConfig): (o: Options)
    ensures o.FirefoxOptions?
    ensures (Headless in o.arguments) <==> c.headless
    ensures |o.arguments| == (if c.headless then 3 else 2)
    ensures o.arguments[|o.arguments| - 2..] == [Width(c.windowSize.0), Height(c.windowSize.1)]
    ensures |o.preferences| == (if UserAgent(c).Some? then 1 else 0) + (if c.disableImages then 1 else 0)
    ensures Get(o.preferences, "general.useragent.override") ==
      (if UserAgent(c).Some? then Some(Str(UserAgent(c).value)) else None)
    ensures Get(o.preferences, "permissions.default.image") == (if c.disableImages then Some(Num(2)) else None)
  {
    var headless := if c.headless then [Headless] else [];
    var agent := if UserAgent(c).Some? then [Entry("general.useragent.override", Str(UserAgent(c).value))] else [];
    var images := if c.disableImages then [Entry("permissions.default.image", Num(2))] else [];
    FirefoxPreferences(agent, images, c);
    FirefoxOptions(headless + [Width(c.windowSize.0), Height(c.windowSize.1)], agent + images)
  }

  lemma FirefoxPreferences(agent: Record, images: Record, c: BrowserConfig)
    requires agent == if UserAgent(c).Some? then [Entry("general.useragent.override", Str(UserAgent(c).value))] else []
    requires images == if c.disableImages then [Entry("permissions.default.image", Num(2))] else []
    ensures Get(agent + images, "general.useragent.override") ==
      (if UserAgent(c).Some? then Some(Str(UserAgent(c).value)) else None)
    ensures Get(agent + images, "permissions.default.image") == (if c.disableImages then Some(Num(2)) else None)
  {
    var e := agent + images;
    assert UniqueKeys(e);
    if UserAgent(c).Some? { GetAt(e, 0); }
    if c.disableImages { GetAt(e, |agent|); }
  }

  // ---------------------------------------------------------------------
  // The driver.

  /** A running browser: what it can do, the page it shows, its session
      history, its cookies and the two timeouts `start_browser` sets. */
  datatype Driver = Driver(
    web: Web,
    page: Page,
    back: seq<Page>,
    forward: seq<Page>,
    cookies: seq<Record>,
    pageLoadTimeout: int,
    implicitWait: int)

  const BrowserNotStarted := Error(Navigation, "Browser not started")

  /** Launching with the given options: success records the two timeouts;
      a driver error and any other error are wrapped differently. */
  function LaunchOutcome(c: BrowserConfig, o: Options, launch: Options -> Result<Driver>): (r: Result<Driver>)
    ensures r.Ok? <==> launch(o).Ok?
    ensures r.Err? ==> r.error.kind == BrowserStartup
    ensures r.Err? ==> r.error == Wrap(BrowserStartup,
      if launch(o).error.kind == DriverError then "Failed to start browser: "
      else "Unexpected error starting browser: ", launch(o).error)
    ensures r.Ok? ==> r.value == launch(o).value.(pageLoadTimeout := c.pageLoadTimeout, implicitWait := c.implicitWait)
  {
    match launch(o)
    case Ok(d) => Ok(d.(pageLoadTimeout := c.pageLoadTimeout, implicitWait := c.implicitWait))
    case Err(e) =>
      if e.kind == DriverError then Err(Wrap(BrowserStartup, "Failed to start browser: ", e))
      else Err(Wrap(BrowserStartup, "Unexpected error starting browser: ", e))
  }

  /** The message of the unsupported-type error, after `start_browser()`'s
      generic handler has rewrapped it. */
  function UnsupportedBrowser(browserType: string): (e: Error)
    ensures e.kind == BrowserStartup
    ensures e.message == "Unexpected error starting browser: Unsupported browser type: " + browserType
  {
    var inner := Error(BrowserStartup, "Unsupported browser type: " + browserType);
    assert "Unexpected error starting browser: " + inner.message ==
      "Unexpected error starting browser: Unsupported browser type: " + browserType;
    Wrap(BrowserStartup, "Unexpected error starting browser: ", inner)
  }

  /** `start_browser()`'s dispatch on the browser type, case-insensitively;
      `launch` stands for `webdriver.Chrome` / `webdriver.Firefox`. */
  function StartOutcome(c: BrowserConfig, launch: Options -> Result<Driver>): Result<Driver> {
    var kind := Text.Lower(c.browserType);
    if kind == "chrome" then LaunchOutcome(c, ChromeOptionsFor(c), launch)
    else if kind == "firefox" then LaunchOutcome(c, FirefoxOptionsFor(c), launch)
    else Err(UnsupportedBrowser(c.browserType))
  }

  /** Any spelling of "chrome" or "firefox" launches that browser with its
      options; every other type fails without launching anything. */
  lemma StartOutcomeDispatch(c: BrowserConfig, launch: Options -> Result<Driver>)
    ensures Text.Lower(c.browserType) == "chrome" ==> StartOutcome(c, launch) == LaunchOutcome(c, ChromeOptionsFor(c), launch)
    ensures Text.Lower(c.browserType) == "firefox" ==> StartOutcome(c, launch) == LaunchOutcome(c, FirefoxOptionsFor(c), launch)
    ensures Text.Lower(c.browserType) != "chrome" && Text.Lower(c.browserType) != "firefox" ==>
      StartOutcome(c, launch) == Err(UnsupportedBrowser(c.browserType))
    ensures StartOutcome(c, launch).Err? ==> StartOutcome(c, launch).error.kind == BrowserStartup
  {
  }

  /** Loading a page pushes the current one onto the back history and
      empties the forward history. */
  function Visit(d: Driver, p: Page): (d': Driver)
    ensures d'.page == p && d'.back == d.back + [d.page] && d'.forward == []
    ensures d'.web == d.web && d'.cookies == d.cookies
  {
    d.(page := p, back := d.back + [d.page], forward := [])
  }

  /** `driver.back()`: without history it stays on the page. */
  function Back(d: Driver): (d': Driver)
    ensures d.back == [] ==> d' == d
    ensures d.back != [] ==>
      d'.page == d.back[|d.back| - 1] && d'.back == d.back[..|d.back| - 1] && d'.forward == [d.page] + d.forward
  {
    if d.back == [] then d
    else d.(page := d.back[|d.back| - 1], back := d.back[..|d.back| - 1], forward := [d.page] + d.forward)
  }

  function Forward(d: Driver): (d': Driver)
    ensures d.forward == [] ==> d' == d
    ensures d.forward != [] ==>
      d'.page == d.forward[0] && d'.forward == d.forward[1..] && d'.back == d.back + [d.page]
  {
    if d.forward == [] then d
    else d.(page := d.forward[0], back := d.back + [d.page], forward := d.forward[1..])
  }

  /** Going back after loading a page shows the previous page again, and
      going forward from there returns to the loaded page. */
  lemma BackForwardAfterVisit(d: Driver, p: Page)
    ensures Back(Visit(d, p)).page == d.page
    ensures Back(Visit(d, p)).back == d.back
    ensures Forward(Back(Visit(d, p))) == Visit(d, p)
  {
    var v := Visit(d, p);
    assert v.back[..|v.back| - 1] == d.back;
    assert Back(v).forward == [p];
  }

  /** `navigate_to(url)` as a function of the driver it starts from. */
  function NavigateResult(driver: Option<Driver>, url: string): (r: Result<Driver>)
    ensures driver.None? ==> r == Err(BrowserNotStarted)
    ensures r.Err? ==> r.error.kind == Navigation
    ensures driver.Some? && driver.value.web.open(url).Err? ==>
      r == Err(Wrap(Navigation, "Failed to navigate to " + url + ": ", driver.value.web.open(url).error))
    ensures driver.Some? && driver.value.web.open(url).Ok? ==>
      r == Ok(Visit(driver.value, driver.value.web.open(url).value))
  {
    match driver
    case None => Err(BrowserNotStarted)
    case Some(d) =>
      match d.web.open(url)
      case Err(e) => Err(Wrap(Navigation, "Failed to navigate to " + url + ": ", e))
      case Ok(p) => Ok(Visit(d, p))
  }

  /** Selenium's name for each locator strategy. */
  function ByName(loc: Locator): string {
    match loc
    case Css(_) => "css selector"
    case XPath(_) => "xpath"
    case TagName(_) => "tag name"
  }

  /** repr() of the `(by, value)` locator tuple. */
  function LocatorRepr(loc: Locator): string {
    "('" + ByName(loc) + "', '" + LocatorText(loc) + "')"
  }

  /** `timeout or self.config.implicit_wait`: an absent or zero timeout
      falls back to the configured wait. */
  function WaitTime(timeout: Option<int>, implicitWait: int): (t: int)
    ensures timeout.Some? && timeout.value != 0 ==> t == timeout.value
    ensures timeout.None? || timeout.value == 0 ==> t == implicitWait
  {
    if timeout.Some? && timeout.value != 0 then timeout.value else implicitWait
  }

  /** `wait_for_element` / `wait_for_clickable` as a function of the state. */
  function WaitResult(driver: Option<Driver>, wait: Option<int>, implicitWait: int,
                      cond: WaitCondition, loc: Locator, timeout: Option<int>): (r: Result<Element>)
    ensures r.Err? ==> r.error.kind == Timeout
    ensures wait.None? ==> r == Err(Error(Timeout, "WebDriverWait not initialized"))
    ensures wait.Some? && driver.Some? ==>
      (r.Ok? <==> driver.value.web.waitFor(driver.value.page, cond, loc, WaitTime(timeout, implicitWait)).Some?)
    ensures r.Ok? ==> (driver.Some? &&
      Some(r.value) == driver.value.web.waitFor(driver.value.page, cond, loc, WaitTime(timeout, implicitWait)))
  {
    if wait.None? then Err(Error(Timeout, "WebDriverWait not initialized"))
    else if driver.None? then Err(Error(Timeout, "Driver not initialized"))
    else
      var t := WaitTime(timeout, implicitWait);
      match driver.value.web.waitFor(driver.value.page, cond, loc, t)
      case Some(e) => Ok(e)
      case None =>
        var what := if cond == Present then "found" else "clickable";
        Err(Error(Timeout, "Element not " + what + " within " + IntToString(t) + " seconds: " + LocatorRepr(loc)))
  }

  class BrowserManager {
    var config: BrowserConfig
    var driver: Option<Driver>
    /** The WebDriverWait, represented by its timeout in seconds. */
    var wait: Option<int>

    /** The two fields are set and cleared together. */
    ghost predicate Valid()
      reads this
    {
      driver.Some? <==> wait.Some?
    }

    constructor (config: BrowserConfig)
      ensures this.config == config && driver == None && wait == None && Valid()
    {
      this.config := config;
      driver := None;
      wait := None;
    }

    /** `start_browser()`: `launch` starts the configured browser. */
    method StartBrowser(launch: Options -> Result<Driver>) returns (r: Result<Driver>)
      requires Valid()
      modifies this
      ensures Valid() && config == old(config)
      ensures r == StartOutcome(config, launch)
      ensures driver == if r.Ok? then Some(r.value) else old(driver)
      ensures wait == if r.Ok? then Some(config.implicitWait) else old(wait)
    {
      var outcome := StartOutcome(config, launch);
      if outcome.Ok? {
        driver := Some(outcome.value);
        wait := Some(config.implicitWait);
      }
      r := outcome;
    }

    /** `close_browser()`: an error from quitting is only logged, and both
        fields are cleared either way; without a driver nothing happens. */
    method CloseBrowser()
      modifies this
      ensures driver == None && wait == (if old(driver).Some? then None else old(wait))
      ensures config == old(config)
    {
      if driver.Some? {
        driver := None;
        wait := None;
      }
    }

    /** `__exit__`: leaving the context closes the browser. */
    method Exit()
      modifies this
      ensures driver == None && wait == (if old(driver).Some? then None else old(wait))
      ensures config == old(config)
    {
      CloseBrowser();
    }

    method NavigateTo(url: string) returns (r: Result<()>)
      requires Valid()
      modifies this
      ensures Valid() && config == old(config) && wait == old(wait)
      ensures var n := NavigateResult(old(driver), url);
        (r.Ok? <==> n.Ok?) && (n.Ok? ==> driver == Some(n.value)) &&
        (n.Err? ==> r == Err(n.error) && driver == old(driver))
    {
      var n := NavigateResult(driver, url);
      match n
      case Err(e) => r := Err(e);
      case Ok(d) => driver := Some(d); r := Ok(());
    }

    method WaitForElement(loc: Locator, timeout: Option<int>) returns (r: Result<Element>)
      ensures r == WaitResult(driver, wait, config.implicitWait, Present, loc, timeout)
    {
      r := WaitResult(driver, wait, config.implicitWait, Present, loc, timeout);
    }

    method WaitForClickable(loc: Locator, timeout: Option<int>) returns (r: Result<Element>)
      ensures r == WaitResult(driver, wait, config.implicitWait, Clickable, loc, timeout)
    {
      r := WaitResult(driver, wait, config.implicitWait, Clickable, loc, timeout);
    }

    method GetPageSource() returns (r: Result<string>)
      ensures driver.None? ==> r == Err(BrowserNotStarted)
      ensures driver.Some? ==> r == Ok(driver.value.page.source)
    {
      if driver.None? { return Err(BrowserNotStarted); }
      r := Ok(driver.value.page.source);
    }

    method GetCurrentUrl() returns (r: Result<string>)
      ensures driver.None? ==> r == Err(BrowserNotStarted)
      ensures driver.Some? ==> r == Ok(driver.value.page.url)
    {
      if driver.None? { return Err(BrowserNotStarted); }
      r := Ok(driver.value.page.url);
    }

    method GetPageTitle() returns (r: Result<string>)
      ensures driver.None? ==> r == Err(BrowserNotStarted)
      ensures driver.Some? ==> r == Ok(driver.value.page.title)
    {
      if driver.None? { return Err(BrowserNotStarted); }
      r := Ok(driver.value.page.title);
    }

    method GetCookies() returns (r: Result<seq<Record>>)
      ensures driver.None? ==> r == Err(BrowserNotStarted)
      ensures driver.Some? ==> r == Ok(driver.value.cookies)
    {
      if driver.None? { return Err(BrowserNotStarted); }
      r := Ok(driver.value.cookies);
    }

    /** `is_element_present(locator)`: any lookup error counts as absent. */
    method IsElementPresent(loc: Locator) returns (present: bool)
      ensures present <==>
        (driver.Some? && FindElements(driver.value.page, Document, loc).Ok? &&
         FindElements(driver.value.page, Document, loc).value != [])
    {
      if driver.None? { return false; }
      var found := FindElement(driver.value.page, Document, loc);
      present := found.Ok? && found.value.Some?;
    }

    /** `take_screenshot(filename)`: a failure to save is only logged. */
    method TakeScreenshot(filename: string) returns (r: Result<()>)
      ensures r.Err? <==> driver.None?
      ensures r.Err? ==> r.error == BrowserNotStarted
    {
      if driver.None? { return Err(BrowserNotStarted); }
      r := Ok(());
    }

    /** `refresh_page()`: reloads the current URL; a failure is not rewrapped. */
    method RefreshPage() returns (r: Result<()>)
      requires Valid()
      modifies this
      ensures Valid() && config == old(config) && wait == old(wait)
      ensures old(driver).None? ==> r == Err(BrowserNotStarted) && driver == old(driver)
      ensures old(driver).Some? ==> var d := old(driver).value;
        match d.web.open(d.page.url)
        case Ok(p) => r == Ok(()) && driver == Some(d.(page := p))
        case Err(e) => r == Err(e) && driver == old(driver)
    {
      if driver.None? { return Err(BrowserNotStarted); }
      var d := driver.value;
      match d.web.open(d.page.url)
      case Ok(p) => driver := Some(d.(page := p)); r := Ok(());
      case Err(e) => r := Err(e);
    }

    method GoBack() returns (r: Result<()>)
      requires Valid()
      modifies this
      ensures Valid() && config == old(config) && wait == old(wait)
      ensures old(driver).None? ==> r == Err(BrowserNotStarted) && driver == old(driver)
      ensures old(driver).Some? ==> r == Ok(()) && driver == Some(Back(old(driver).value))
    {
      if driver.None? { return Err(BrowserNotStarted); }
      driver := Some(Back(driver.value));
      r := Ok(());
    }

    method GoForward() returns (r: Result<()>)
      requires Valid()
      modifies this
      ensures Valid() && config == old(config) && wait == old(wait)
      ensures old(driver).None? ==> r == Err(BrowserNotStarted) && driver == old(driver)
      ensures old(driver).Some? ==> r == Ok(()) && driver == Some(Forward(old(driver).value))
    {
      if driver.None? { return Err(BrowserNotStarted); }
      driver := Some(Forward(driver.value));
      r := Ok(());
    }

    method AddCookie(cookie: Record) returns (r: Result<()>)
      requires Valid()
      modifies this
      ensures Valid() && config == old(config) && wait == old(wait)
      ensures old(driver).None? ==> r == Err(BrowserNotStarted) && driver == old(driver)
      ensures old(driver).Some? ==>
        r == Ok(()) && driver == Some(old(driver).value.(cookies := old(driver).value.cookies + [cookie]))
    {
      if driver.None? { return Err(BrowserNotStarted); }
      driver := Some(driver.value.(cookies := driver.value.cookies + [cookie]));
      r := Ok(());
    }

    method ClearCookies() returns (r: Result<()>)
      requires Valid()
      modifies this
      ensures Valid() && config == old(config) && wait == old(wait)
      ensures old(driver).None? ==> r == Err(BrowserNotStarted) && driver == old(driver)
      ensures old(driver).Some? ==> r == Ok(()) && driver == Some(old(driver).value.(cookies := []))
    {
      if driver.None? { return Err(BrowserNotStarted); }
      driver := Some(driver.value.(cookies := []));
      r := Ok(());
    }

    /** `execute_script(script, *args)`: the script may change the page and
        its result is returned; a failure is not rewrapped. */
    method ExecuteScript(script: string, args: seq<ScriptArg>) returns (r: Result<Value>)
      requires Valid()
      modifies this
      ensures Valid() && config == old(config) && wait == old(wait)
      ensures old(driver).None? ==> r == Err(BrowserNotStarted) && driver == old(driver)
      ensures old(driver).Some? ==> var d := old(driver).value;
        match d.web.script(d.page, script, args)
        case Ok(out) => r == Ok(out.1) && driver == Some(d.(page := out.0))
        case Err(e) => r == Err(e) && driver == old(driver)
    {
      if driver.None? { return Err(BrowserNotStarted); }
      var d := driver.value;
      match d.web.script(d.page, script, args)
      case Ok(out) => driver := Some(d.(page := out.0)); r := Ok(out.1);
      case Err(e) => r := Err(e);
    }

    method ScrollToElement(e: Element) returns (r: Result<()>)
      requires Valid()
      modifies this
      ensures Valid() && config == old(config) && wait == old(wait)
      ensures old(driver).None? ==> r == Err(BrowserNotStarted) && driver == old(driver)
      ensures old(driver).Some? ==> var d := old(driver).value;
        var out := d.web.script(d.page, "arguments[0].scrollIntoView(true);", [ElementArg(e)]);
        (r.Ok? <==> out.Ok?) && (out.Ok? ==> driver == Some(d.(page := out.value.0)))
    {
      var v := ExecuteScript("arguments[0].scrollIntoView(true);", [ElementArg(e)]);
      r := if v.Ok? then Ok(()) else Err(v.error);
    }

    method ScrollToBottom() returns (r: Result<()>)
      requires Valid()
      modifies this
      ensures Valid() && config == old(config) && wait == old(wait)
      ensures old(driver).None? ==> r == Err(BrowserNotStarted) && driver == old(driver)
      ensures old(driver).Some? ==> var d := old(driver).value;
        var out := d.web.script(d.page, "window.scrollTo(0, document.body.scrollHeight);", []);
        (r.Ok? <==> out.Ok?) && (out.Ok? ==> driver == Some(d.(page := out.value.0)))
    {
      var v := ExecuteScript("window.scrollTo(0, document.body.scrollHeight);", []);
      r := if v.Ok? then Ok(()) else Err(v.error);
    }
  }
}
