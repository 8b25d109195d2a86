/**
 * The command-line front end: its arguments, how they override the
 * configuration, the setup of browser, file handler and scraper, the
 * `scrape-*` commands that scrape one page and save the session, the
 * `config` command, and the routing of `run`, which always closes the
 * browser at the end.
 */
module Cli {
  import opened Exceptions
  import opened Records
  import opened Config
  import opened BrowserManagement
  import opened FileUtils
  import opened Scraper
  import Text

  /** The subcommand and its own arguments. */
  datatype Command =
    | NoCommand
    | ScrapePageCmd(url: string, selectors: string, multiple: bool)
    | ScrapeTableCmd(url: string, tableSelector: string)
    | ScrapeLinksCmd(url: string, linkSelector: string)
    | ScrapeImagesCmd(url: string, imgSelector: string)
    | ScrapeFormsCmd(url: string, formSelector: string)
    | ScrapePatternCmd(url: string, patterns: string)
    | GuiCmd
    | ConfigCmd(show: bool, createDefault: bool)
  {
    /** The commands that need a browser and a scraper. */
    predicate IsScrape() {
      ScrapePageCmd? || ScrapeTableCmd? || ScrapeLinksCmd? || ScrapeImagesCmd? || ScrapeFormsCmd? || ScrapePatternCmd?
    }
  }

  /** The parsed command line: the global options and the subcommand. */
  datatype Arguments = Arguments(
    config: Option<string>,
    headless: bool,
    browser: string,
    output: string,
    outputDir: string,
    filename: Option<string>,
    verbose: bool,
    quiet: bool,
    command: Command)

  /** The parser's defaults for the global options. */
  function DefaultArguments(command: Command): (a: Arguments)
    ensures a.config == None && a.filename == None && !a.headless && !a.verbose && !a.quiet
    ensures a.browser == "chrome" && a.output == "json" && a.outputDir == "output"
    ensures a.command == command
  {
    Arguments(None, false, "chrome", "json", "output", None, false, false, command)
  }

  /** `--config` names a file (a truthy string). */
  predicate ConfigGiven(a: Arguments) {
    a.config.Some? && a.config.value != ""
  }

  // ---------------------------------------------------------------------
  // `apply_args`: the option overrides, in the order the source applies
  // them.

  /** `--headless` only turns headless mode on, and a non-empty `--browser`
      replaces the browser type; the other browser settings stay. */
  function BrowserOverrides(b: BrowserConfig, a: Arguments): (r: BrowserConfig)
    ensures r.headless == (b.headless || a.headless)
    ensures r.browserType == (if a.browser != "" then a.browser else b.browserType)
    ensures r.windowSize == b.windowSize && r.implicitWait == b.implicitWait && r.pageLoadTimeout == b.pageLoadTimeout
    ensures r.disableGpu == b.disableGpu && r.disableImages == b.disableImages && r.userAgent == b.userAgent
  {
    var b1 := if a.headless then b.(headless := true) else b;
    if a.browser != "" then b1.(browserType := a.browser) else b1
  }

  /** A non-empty output directory or format replaces its field, and so
      does `--filename` when given and non-empty; the timestamp and backup
      settings stay. */
  function OutputOverrides(o: OutputConfig, a: Arguments): (r: OutputConfig)
    ensures r.outputDir == (if a.outputDir != "" then a.outputDir else o.outputDir)
    ensures r.outputFormat == (if a.output != "" then a.output else o.outputFormat)
    ensures r.filenamePrefix == (if a.filename.Some? && a.filename.value != "" then a.filename.value else o.filenamePrefix)
    ensures r.includeTimestamp == o.includeTimestamp && r.createBackup == o.createBackup
  {
    var o1 := if a.outputDir != "" then o.(outputDir := a.outputDir) else o;
    var o2 := if a.output != "" then o1.(outputFormat := a.output) else o1;
    if a.filename.Some? && a.filename.value != "" then o2.(filenamePrefix := a.filename.value) else o2
  }

  /** `--verbose` gives DEBUG and `--quiet`, applied after it, WARNING. */
  function LevelOverride(level: string, a: Arguments): (r: string)
    ensures a.quiet ==> r == "WARNING"
    ensures !a.quiet && a.verbose ==> r == "DEBUG"
    ensures !a.quiet && !a.verbose ==> r == level
  {
    var level1 := if a.verbose then "DEBUG" else level;
    if a.quiet then "WARNING" else level1
  }

  /** The configuration after the option overrides; the scraping settings
      and the log file stay. */
  function Overrides(c: AppConfig, a: Arguments): (r: AppConfig)
    ensures r.browser == BrowserOverrides(c.browser, a)
    ensures r.output == OutputOverrides(c.output, a)
    ensures r.logLevel == LevelOverride(c.logLevel, a)
    ensures r.scraping == c.scraping && r.logFile == c.logFile
  {
    c.(browser := BrowserOverrides(c.browser, a), output := OutputOverrides(c.output, a),
       logLevel := LevelOverride(c.logLevel, a))
  }

  /** Overriding twice with the same options is overriding once. */
  lemma OverridesIdempotent(c: AppConfig, a: Arguments)
    ensures Overrides(Overrides(c, a), a) == Overrides(c, a)
  {
    var once := Overrides(c, a);
    var twice := Overrides(once, a);
    assert BrowserOverrides(once.browser, a) == once.browser;
    assert OutputOverrides(once.output, a) == once.output;
  }

  /** The parser always supplies a browser, an output format and an output
      directory, so those three fields never keep what a configuration file
      said. */
  lemma ParserDefaultsAlwaysWin(c: AppConfig, command: Command)
    ensures Overrides(c, DefaultArguments(command)).browser.browserType == "chrome"
    ensures Overrides(c, DefaultArguments(command)).output.outputFormat == "json"
    ensures Overrides(c, DefaultArguments(command)).output.outputDir == "output"
    ensures Overrides(c, DefaultArguments(command)).browser.headless == c.browser.headless
  {
  }

  /** The configuration the command runs with when the `--config` file is
      honoured: the file's configuration replaces the current one before the
      overrides. */
  function EffectiveConfig(c: AppConfig, a: Arguments, file: Option<Result<Value>>): AppConfig {
    Overrides(if ConfigGiven(a) then LoadConfig(file) else c, a)
  }

  /** With `--config`, every field no option overrides comes from the named
      file; without it, from the current configuration. */
  lemma ConfigFileApplied(c: AppConfig, a: Arguments, file: Option<Result<Value>>)
    ensures var base := if ConfigGiven(a) then LoadConfig(file) else c;
      var r := EffectiveConfig(c, a, file);
      r.scraping == base.scraping && r.logFile == base.logFile &&
      r.browser.windowSize == base.browser.windowSize && r.browser.userAgent == base.browser.userAgent &&
      (!a.headless ==> r.browser.headless == base.browser.headless) &&
      (!a.quiet && !a.verbose ==> r.logLevel == base.logLevel)
  {
  }

  /** The code as written applies the overrides to the configuration loaded
      at startup, and only the manager sees the `--config` file: a file that
      sets headless mode leaves the command's browser visible. */
  lemma ConfigFileIgnored()
    ensures var a := DefaultArguments(ScrapeLinksCmd("https://example.com", "a")).(config := Some("custom.json"));
      var file := Some(Ok(Dict([Entry("browser", Dict([Entry("headless", Bool(true))]))])));
      !Overrides(DefaultConfig(), a).browser.headless &&
      EffectiveConfig(DefaultConfig(), a, file).browser.headless
  {
    var data := Dict([Entry("browser", Dict([Entry("headless", Bool(true))]))]);
    HeadlessDocument();
    LoadFallsBack(Some(Ok(data)));
    assert LoadConfig(Some(Ok(data))).browser.headless;
  }

  // ---------------------------------------------------------------------
  // The scrape commands.

  /** The command's URL. */
  function CommandUrl(cmd: Command): string
    requires cmd.IsScrape()
  {
    match cmd
    case ScrapePageCmd(url, _, _) => url
    case ScrapeTableCmd(url, _) => url
    case ScrapeLinksCmd(url, _) => url
    case ScrapeImagesCmd(url, _) => url
    case ScrapeFormsCmd(url, _) => url
    case ScrapePatternCmd(url, _) => url
  }

  /** The word the scraper's error messages use for the command. */
  function What(cmd: Command): string
    requires cmd.IsScrape()
  {
    match cmd
    case ScrapePageCmd(_, _, _) => "page"
    case ScrapeTableCmd(_, _) => "table from"
    case ScrapeLinksCmd(_, _) => "links from"
    case ScrapeImagesCmd(_, _) => "images from"
    case ScrapeFormsCmd(_, _) => "forms from"
    case ScrapePatternCmd(_, _) => "patterns from"
  }

  /** The file prefix a command saves under when the configuration has none. */
  function DefaultPrefix(cmd: Command): string
    requires cmd.IsScrape()
  {
    match cmd
    case ScrapePageCmd(_, _, _) => "scraped_page"
    case ScrapeTableCmd(_, _) => "scraped_table"
    case ScrapeLinksCmd(_, _) => "scraped_links"
    case ScrapeImagesCmd(_, _) => "scraped_images"
    case ScrapeFormsCmd(_, _) => "scraped_forms"
    case ScrapePatternCmd(_, _) => "scraped_patterns"
  }

  /** `filename_prefix or default`. */
  function SavePrefix(configured: string, default: string): (p: string)
    ensures configured != "" ==> p == configured
    ensures configured == "" ==> p == default
  {
    if configured != "" then configured else default
  }

  /** The default configuration has a prefix, so a command's own default
      prefix only shows when a configuration empties it. */
  lemma DefaultConfigPrefixWins(cmd: Command)
    requires cmd.IsScrape()
    ensures SavePrefix(DefaultConfig().output.filenamePrefix, DefaultPrefix(cmd)) == "scraped_data"
  {
  }

  /** The decoded JSON argument a scrape command hands to the scraper:
      the selectors of `scrape-page`, or the value `scrape-pattern` passes
      on as its patterns. */
  datatype Argument = SelectorArg(sels: Selectors) | PatternArg(patterns: Value)
  {
    /** The selectors, if this is a selectors argument. */
    function SelectorsOf(): Selectors {
      if SelectorArg? then sels else []
    }

    /** The patterns, if this is a patterns argument. */
    function PatternsOf(): Value {
      if PatternArg? then patterns else Dict([])
    }
  }

  /** A decoded selectors argument: an object whose values are all
      strings. */
  function PageSelectors(v: Value): (r: Option<Selectors>)
    ensures r.Some? <==> v.Dict? && forall i :: 0 <= i < |v.entries| ==> v.entries[i].value.Str?
    ensures r.Some? ==>
      |r.value| == |v.entries| && forall i :: 0 <= i < |r.value| ==> r.value[i] == (v.entries[i].key, v.entries[i].value.s)
  {
    if v.Dict? && forall i :: 0 <= i < |v.entries| ==> v.entries[i].value.Str? then
      Some(seq(|v.entries|, i requires 0 <= i < |v.entries| && v.entries[i].value.Str? =>
        (v.entries[i].key, v.entries[i].value.s)))
    else None
  }

  /** The JSON argument of `scrape-page` and `scrape-pattern`, decoded by
      `loads` (None: `json.JSONDecodeError`); the other commands take none.
      `scrape-pattern` passes on whatever value decodes. */
  function Parsed(cmd: Command, loads: string -> Option<Value>): (r: Option<Argument>)
    ensures !cmd.ScrapePageCmd? && !cmd.ScrapePatternCmd? ==> r == Some(SelectorArg([]))
    ensures cmd.ScrapePatternCmd? ==>
      (r.Some? <==> loads(cmd.patterns).Some?) && (r.Some? ==> r.value == PatternArg(loads(cmd.patterns).value))
    ensures cmd.ScrapePageCmd? ==>
      (r.Some? <==> loads(cmd.selectors).Some? && PageSelectors(loads(cmd.selectors).value).Some?) &&
      (r.Some? ==> r.value == SelectorArg(PageSelectors(loads(cmd.selectors).value).value))
  {
    match cmd
    case ScrapePageCmd(_, selectors, _) =>
      (match loads(selectors)
       case None => None
       case Some(v) =>
         match PageSelectors(v)
         case None => None
         case Some(sels) => Some(SelectorArg(sels)))
    case ScrapePatternCmd(_, patterns) =>
      (match loads(patterns)
       case None => None
       case Some(v) => Some(PatternArg(v)))
    case _ => Some(SelectorArg([]))
  }

  /** What the command's scraper method extracts from the loaded page. */
  function Extracted(cmd: Command, libs: Libraries, arg: Argument, page: Port.Page): Result<seq<Record>>
    requires cmd.IsScrape()
  {
    match cmd
    case ScrapePageCmd(_, _, multiple) => PageOutcome(page, arg.SelectorsOf(), multiple)
    case ScrapeTableCmd(_, tableSelector) => TableRows(page, tableSelector)
    case ScrapeLinksCmd(url, linkSelector) => LinksOn(libs, page, url, linkSelector)
    case ScrapeImagesCmd(url, imgSelector) => ImagesOn(libs, page, url, imgSelector)
    case ScrapeFormsCmd(_, formSelector) => FormsOn(page, formSelector)
    case ScrapePatternCmd(_, _) => PatternOutcome(libs, page.source, arg.PatternsOf())
  }

  /** `scrape-pattern` with `{"email": <regex>, "count": 1}`: the number is
      no pattern and is skipped, and the email matches are still scraped. */
  lemma NonStringPatternCommand(url: string, json: string, loads: string -> Option<Value>, libs: Libraries,
                                page: Port.Page, regex: string)
    requires loads(json) == Some(Dict([Entry("email", Str(regex)), Entry("count", Num(1))]))
    ensures var cmd := ScrapePatternCmd(url, json);
      Parsed(cmd, loads).Some? &&
      Extracted(cmd, libs, Parsed(cmd, loads).value, page) == Ok(PatternRecords(libs, page.source, [("email", regex)]))
  {
    var items := [Entry("email", Str(regex)), Entry("count", Num(1))];
    StringPatternKept([], "email", regex, [Entry("count", Num(1))]);
    assert [] + [Entry("email", Str(regex))] + [Entry("count", Num(1))] == items;
    var last := [Entry("count", Num(1))];
    assert last[..0] == [];
    assert StringPatterns(last) == [];
  }

  /** The scraper call of a command: its result and the session after it. */
  function ScrapeOf(s: Session, delay: real, cmd: Command, libs: Libraries, arg: Argument, driver: Option<Driver>)
    : (out: (Result<seq<Record>>, Session))
    requires cmd.IsScrape()
    ensures out.0.Err? ==> out.1.stats.errors == s.stats.errors + 1 && out.1.data == s.data
    ensures out.0.Ok? ==> out.1.data == s.data + out.0.value
    ensures driver.None? ==> out.0 == Err(Wrap(Scraping, ScrapePrefix(What(cmd), CommandUrl(cmd)), BrowserNotStarted))
  {
    var nav := NavigateResult(driver, CommandUrl(cmd));
    Scrape(s, delay, ScrapePrefix(What(cmd), CommandUrl(cmd)), nav,
      if nav.Ok? then Extracted(cmd, libs, arg, nav.value.page) else Ok([]))
  }

  // ---------------------------------------------------------------------
  // `config --show`.

  /** The part of the configuration `config --show` prints. */
  function ConfigView(c: AppConfig): (v: Value)
    ensures v.Dict? && Keys(v.entries) == ["browser", "scraping", "output", "log_level", "log_file"]
  {
    Dict([
      Entry("browser", Dict([
        Entry("browser_type", Str(c.browser.browserType)),
        Entry("headless", Bool(c.browser.headless)),
        Entry("window_size", List([Num(c.browser.windowSize.0), Num(c.browser.windowSize.1)])),
        Entry("implicit_wait", Num(c.browser.implicitWait)),
        Entry("page_load_timeout", Num(c.browser.pageLoadTimeout))])),
      Entry("scraping", Dict([
        Entry("default_delay", Real(c.scraping.defaultDelay)),
        Entry("retry_attempts", Num(c.scraping.retryAttempts)),
        Entry("retry_delay", Real(c.scraping.retryDelay))])),
      Entry("output", Dict([
        Entry("output_dir", Str(c.output.outputDir)),
        Entry("output_format", Str(c.output.outputFormat)),
        Entry("filename_prefix", Str(c.output.filenamePrefix))])),
      Entry("log_level", Str(c.logLevel)),
      Entry("log_file", Str(c.logFile))])
  }

  /** The view leaves out the GPU, image, user-agent, robots, page-limit,
      timestamp and backup settings, and shows everything else: two
      configurations have the same view exactly when they agree outside
      those. */
  lemma ConfigViewShowsExactly(c: AppConfig, d: AppConfig)
    ensures ConfigView(c) == ConfigView(d) <==>
      c.browser.(disableGpu := false, disableImages := false, userAgent := None) ==
        d.browser.(disableGpu := false, disableImages := false, userAgent := None) &&
      c.scraping.(respectRobotsTxt := false, maxPages := 0) == d.scraping.(respectRobotsTxt := false, maxPages := 0) &&
      c.output.(includeTimestamp := false, createBackup := false) ==
        d.output.(includeTimestamp := false, createBackup := false) &&
      c.logLevel == d.logLevel && c.logFile == d.logFile
  {
    if ConfigView(c) == ConfigView(d) {
      var vc := ConfigView(c).entries;
      var vd := ConfigView(d).entries;
      assert vc[0] == vd[0] && vc[1] == vd[1] && vc[2] == vd[2];
      var bc := vc[0].value.entries;
      var bd := vd[0].value.entries;
      assert bc[2].value.items[0] == bd[2].value.items[0];
      assert bc[2].value.items[1] == bd[2].value.items[1];
      assert c.browser.windowSize == d.browser.windowSize;
    }
  }

  /** What `run_config` does for the `--show` and `--create-default` flags. */
  datatype Outcome =
    | ShowedHelp
    | ShowedConfig(view: Value)
    | CreatedDefaultConfig
    | ConfigUsage
    | LaunchedGui
    | Scraped(result: Option<seq<Record>>)
    | Exited(code: int, message: string)

  /** `--show` wins over `--create-default`; with neither, the usage hint. */
  function ConfigOutcome(show: bool, createDefault: bool, c: AppConfig): (o: Outcome)
    ensures o.ShowedConfig? <==> show
    ensures o == CreatedDefaultConfig <==> !show && createDefault
    ensures o.ShowedConfig? ==> o.view == ConfigView(c)
  {
    if show then ShowedConfig(ConfigView(c))
    else if createDefault then CreatedDefaultConfig
    else ConfigUsage
  }

  /** What the world outside the program supplies to one run: the contents
      of the `--config` file, the browser launch, the output directory's
      listing, the clock readings and timestamps, JSON decoding and
      encoding, and the URL and regex libraries. */
  datatype Environment = Environment(
    configFile: Option<Result<Value>>,
    launch: Options -> Result<Driver>,
    listing: seq<DirEntry>,
    startTime: real,
    now: real,
    isoTime: string,
    stamp: string,
    summaryStamp: string,
    loads: string -> Option<Value>,
    dumps: Value -> string,
    libs: Libraries)

  /** The objects a scrape command may change. */
  function ScraperParts(scraper: Option<WebScraper>): set<object> {
    if scraper.Some? then {scraper.value, scraper.value.browser, scraper.value.exporter.handler} else {}
  }

  function BrowserParts(browser: Option<BrowserManager>): set<object> {
    if browser.Some? then {browser.value} else {}
  }

  /** The command-line interface: the configuration manager, the
      configuration the commands use (the manager's configuration object at
      construction), and the browser manager and scraper the setup makes. */
  class CLI {
    const manager: ConfigManager
    var config: AppConfig
    var browser: Option<BrowserManager>
    var scraper: Option<WebScraper>

    constructor (manager: ConfigManager)
      ensures this.manager == manager && config == manager.config
      ensures browser == None && scraper == None
    {
      this.manager := manager;
      config := manager.config;
      browser := None;
      scraper := None;
    }

    /** The overrides of `apply_args`, one option at a time. */
    method ApplyOverrides(a: Arguments)
      modifies this
      ensures config == Overrides(old(config), a)
      ensures browser == old(browser) && scraper == old(scraper)
    {
      var b := config.browser;
      var out := config.output;
      var level := config.logLevel;
      if a.headless {
        b := b.(headless := true);
      }
      if a.browser != "" {
        b := b.(browserType := a.browser);
      }
      if a.outputDir != "" {
        out := out.(outputDir := a.outputDir);
      }
      if a.output != "" {
        out := out.(outputFormat := a.output);
      }
      if a.filename.Some? && a.filename.value != "" {
        out := out.(filenamePrefix := a.filename.value);
      }
      if a.verbose {
        level := "DEBUG";
      }
      if a.quiet {
        level := "WARNING";
      }
      config := config.(browser := b, output := out, logLevel := level);
    }

    /** `apply_args` as written: `--config` reloads only the manager's
        configuration, and the overrides go to the configuration loaded at
        startup. */
    method ApplyArgs(a: Arguments, file: Option<Result<Value>>)
      modifies this, manager
      ensures config == Overrides(old(config), a)
      ensures ConfigGiven(a) ==> manager.configFile == a.config.value && manager.config == LoadConfig(file)
      ensures !ConfigGiven(a) ==> manager.configFile == old(manager.configFile) && manager.config == old(manager.config)
      ensures manager.saved == old(manager.saved)
      ensures browser == old(browser) && scraper == old(scraper)
    {
      if ConfigGiven(a) {
        manager.configFile := a.config.value;
        manager.Reload(file);
      }
      ApplyOverrides(a);
    }

    /** `apply_args` as intended: the configuration loaded from `--config`
        is the one the overrides and the command use. */
    method ApplyArgsIntended(a: Arguments, file: Option<Result<Value>>)
      modifies this, manager
      ensures config == EffectiveConfig(old(config), a, file)
      ensures ConfigGiven(a) ==> manager.configFile == a.config.value && manager.config == LoadConfig(file)
      ensures !ConfigGiven(a) ==> manager.configFile == old(manager.configFile) && manager.config == old(manager.config)
      ensures manager.saved == old(manager.saved)
      ensures browser == old(browser) && scraper == old(scraper)
    {
      if ConfigGiven(a) {
        manager.configFile := a.config.value;
        manager.Reload(file);
        config := manager.config;
      }
      ApplyOverrides(a);
    }

    /** `setup_scraper`: the browser manager is kept even when its start
        fails, so that the cleanup closes it; a failed start is re-raised
        under "Failed to setup scraper: ". */
    method SetupScraper(env: Environment) returns (r: Result<WebScraper>)
      requires UniqueNames(env.listing)
      modifies this
      ensures config == old(config)
      ensures browser.Some? && fresh(browser.value) && browser.value.config == config.browser
      ensures StartOutcome(config.browser, env.launch).Err? ==>
        r == Err(Error(BrowserStartup, "Failed to setup scraper: " + StartOutcome(config.browser, env.launch).error.message))
      ensures r.Err? ==> browser.value.driver == None && scraper == old(scraper)
      ensures StartOutcome(config.browser, env.launch).Ok? ==> r.Ok?
      ensures r.Ok? ==> scraper == Some(r.value) && fresh(r.value) && fresh(r.value.exporter.handler)
      ensures r.Ok? ==> r.value.Valid() && r.value.browser == browser.value && r.value.data == []
      ensures r.Ok? ==> browser.value.driver == Some(StartOutcome(config.browser, env.launch).value)
      ensures r.Ok? ==> r.value.config == config.scraping
      ensures r.Ok? ==> r.value.exporter.handler.outputDir == config.output.outputDir
      ensures r.Ok? ==> r.value.exporter.handler.listing == env.listing
    {
      var bm := new BrowserManager(config.browser);
      browser := Some(bm);
      var started := bm.StartBrowser(env.launch);
      if started.Err? {
        // The source raises the base BrowserScraperException, which has no
        // kind of its own; it is tagged here as its BrowserStartup subclass,
        // and `run` catches both alike.
        return Err(Error(BrowserStartup, "Failed to setup scraper: " + started.error.message));
      }
      var s := NewScraper(bm, config, env);
      scraper := Some(s);
      r := Ok(s);
    }

    /** The file handler on the output directory, its exporter, and the
        scraper on the started browser. */
    static method NewScraper(bm: BrowserManager, config: AppConfig, env: Environment) returns (s: WebScraper)
      requires bm.Valid() && UniqueNames(env.listing)
      ensures fresh(s) && fresh(s.exporter.handler)
      ensures s.Valid() && s.browser == bm && s.data == [] && s.config == config.scraping
      ensures s.exporter.handler.outputDir == config.output.outputDir && s.exporter.handler.listing == env.listing
    {
      var handler := new FileHandler(config.output.outputDir, env.listing);
      var exporter := new DataExporter(handler);
      s := new WebScraper(bm, config.scraping, exporter, env.startTime);
    }

    /** `cleanup`: closes the browser when there is a browser manager. */
    method Cleanup()
      modifies BrowserParts(browser)
      ensures browser.Some? ==> browser.value.driver == None && browser.value.config == old(browser.value.config)
    {
      if browser.Some? {
        browser.value.CloseBrowser();
      }
    }

    /** The scraper method a scrape command calls. */
    static method Dispatch(s: WebScraper, cmd: Command, libs: Libraries, arg: Argument) returns (data: Result<seq<Record>>)
      requires cmd.IsScrape() && s.Valid()
      modifies s, s.browser
      ensures s.Valid()
      ensures (data, s.Snapshot()) == ScrapeOf(old(s.Snapshot()), s.config.defaultDelay, cmd, libs, arg, old(s.browser.driver))
    {
      match cmd {
        case ScrapePageCmd(url, _, multiple) =>
          data := s.ScrapePage(url, arg.SelectorsOf(), multiple);
        case ScrapeTableCmd(url, tableSelector) =>
          data := s.ScrapeTable(url, tableSelector);
        case ScrapeLinksCmd(url, linkSelector) =>
          data := s.ScrapeLinks(libs, url, linkSelector);
        case ScrapeImagesCmd(url, imgSelector) =>
          data := s.ScrapeImages(libs, url, imgSelector);
        case ScrapeFormsCmd(url, formSelector) =>
          data := s.ScrapeForms(url, formSelector);
        case ScrapePatternCmd(url, _) =>
          data := s.ScrapePatterns(libs, url, arg.PatternsOf());
      }
    }

    /** The `run_scrape_*` methods: nothing without a scraper or with JSON
        that does not decode; otherwise the scraper's call for the command,
        then `save_data` in the configured format under the configured
        prefix or the command's own; any failure gives None. */
    method RunScrape(cmd: Command, env: Environment) returns (r: Option<seq<Record>>)
      requires cmd.IsScrape()
      requires scraper.Some? ==> scraper.value.Valid()
      modifies ScraperParts(scraper)
      ensures scraper.Some? ==> scraper.value.Valid()
      ensures scraper.None? ==> r == None
      ensures scraper.Some? && r.Some? ==> scraper.value.data == old(scraper.value.data) + r.value
      ensures scraper.Some? && Parsed(cmd, env.loads).None? ==>
        r == None && scraper.value.Snapshot() == old(scraper.value.Snapshot())
      ensures scraper.Some? && Parsed(cmd, env.loads).Some? ==>
        var s := scraper.value;
        var out := ScrapeOf(old(s.Snapshot()), s.config.defaultDelay, cmd, env.libs, Parsed(cmd, env.loads).value,
                            old(s.browser.driver));
        s.Snapshot() == out.1 &&
        (r.Some? ==> out.0 == Ok(r.value)) &&
        (out.0.Err? ==> r == None) &&
        (out.0.Ok? && out.1.data == [] ==> r == Some(out.0.value)) &&
        (out.0.Ok? && out.1.data != [] && !KnownFormat(config.output.outputFormat) ==> r == None) &&
        (out.0.Ok? && out.1.data != [] ==>
          (r.Some? <==> SaveWritable(Exported(out.1.data), config.output.outputFormat,
                                     SavePrefix(config.output.filenamePrefix, DefaultPrefix(cmd)), env.stamp,
                                     env.summaryStamp, old(s.exporter.handler.listing))))
      ensures scraper.Some? && r.Some? && scraper.value.data != [] ==>
        var s := scraper.value;
        var prefix := SavePrefix(config.output.filenamePrefix, DefaultPrefix(cmd));
        var name := GenerateFilename(prefix, config.output.outputFormat, true, env.stamp);
        var summary := GenerateFilename(prefix + "_summary", "json", true, env.summaryStamp);
        FileAt(s.exporter.handler.listing, summary) ==
          Some(JsonFile(Summary(Exported(s.data), StatsRecord(s.stats, env.now), env.isoTime))) &&
        (name != summary ==>
          FileAt(s.exporter.handler.listing, name) ==
            Some(ExportedContent(Exported(s.data), Text.Lower(config.output.outputFormat), env.dumps)))
    {
      if scraper.None? {
        return None;
      }
      var s := scraper.value;
      var arg := Parsed(cmd, env.loads);
      if arg.None? {
        return None;
      }
      var data := Dispatch(s, cmd, env.libs, arg.value);
      if data.Err? {
        return None;
      }
      var prefix := SavePrefix(config.output.filenamePrefix, DefaultPrefix(cmd));
      var saved := s.SaveData(config.output.outputFormat, prefix, env.stamp, env.summaryStamp,
                              env.now, env.isoTime, env.dumps);
      if saved.Err? {
        return None;
      }
      r := Some(data.value);
    }

    /** `run_config`. */
    method RunConfig(show: bool, createDefault: bool) returns (o: Outcome)
      modifies manager
      ensures o == ConfigOutcome(show, createDefault, config)
      ensures o == CreatedDefaultConfig ==>
        manager.config == DefaultConfig() && manager.saved == Some(ConfigAsDict(DefaultConfig()))
      ensures o != CreatedDefaultConfig ==> manager.config == old(manager.config) && manager.saved == old(manager.saved)
      ensures manager.configFile == old(manager.configFile)
    {
      if show {
        o := ShowedConfig(ConfigView(config));
      } else if createDefault {
        manager.CreateDefaultConfigFile();
        o := CreatedDefaultConfig;
      } else {
        o := ConfigUsage;
      }
    }

    /** `run`, with `apply_args` as intended: no command shows the help;
        `config` and `gui` run without a browser; the scrape commands set up
        the scraper (a failed setup exits with status 1) and run; the
        browser is closed at the end whatever happened. */
    method Run(a: Arguments, env: Environment) returns (o: Outcome)
      requires browser == None && scraper == None
      requires UniqueNames(env.listing)
      modifies this, manager
      ensures a.command.NoCommand? ==>
        o == ShowedHelp && config == old(config) && browser == None && scraper == None &&
        manager.config == old(manager.config)
      ensures !a.command.NoCommand? ==> config == EffectiveConfig(old(config), a, env.configFile)
      ensures a.command.ConfigCmd? ==>
        o == ConfigOutcome(a.command.show, a.command.createDefault, config) && browser == None && scraper == None
      ensures a.command.GuiCmd? ==> o == LaunchedGui && browser == None && scraper == None
      ensures a.command.IsScrape() ==>
        browser.Some? && fresh(browser.value) && browser.value.driver == None
      ensures a.command.IsScrape() && StartOutcome(config.browser, env.launch).Err? ==>
        o == Exited(1, "Failed to setup scraper: " + StartOutcome(config.browser, env.launch).error.message) &&
        scraper == None
      ensures a.command.IsScrape() && StartOutcome(config.browser, env.launch).Ok? ==>
        o.Scraped? && scraper.Some? && fresh(scraper.value) && scraper.value.browser == browser.value &&
        scraper.value.config == config.scraping &&
        (o.result.Some? ==> scraper.value.data == o.result.value)
    {
      if a.command.NoCommand? {
        return ShowedHelp;
      }
      ApplyArgsIntended(a, env.configFile);
      if a.command.ConfigCmd? {
        o := RunConfig(a.command.show, a.command.createDefault);
        Cleanup();
        return;
      }
      if a.command.GuiCmd? {
        Cleanup();
        return LaunchedGui;
      }
      o := SetUpAndScrape(a.command, env);
    }

    /** The scrape branch of `run`: setup, the command, then the cleanup
        that closes the browser. */
    method SetUpAndScrape(cmd: Command, env: Environment) returns (o: Outcome)
      requires cmd.IsScrape() && scraper == None
      requires UniqueNames(env.listing)
      modifies this
      ensures config == old(config)
      ensures browser.Some? && fresh(browser.value) && browser.value.driver == None
      ensures StartOutcome(config.browser, env.launch).Err? ==>
        o == Exited(1, "Failed to setup scraper: " + StartOutcome(config.browser, env.launch).error.message) &&
        scraper == None
      ensures StartOutcome(config.browser, env.launch).Ok? ==>
        o.Scraped? && scraper.Some? && fresh(scraper.value) && scraper.value.browser == browser.value &&
        scraper.value.config == config.scraping &&
        (o.result.Some? ==> scraper.value.data == o.result.value)
    {
      var setup := SetupScraper(env);
      if setup.Err? {
        Cleanup();
        return Exited(1, setup.error.message);
      }
      o := ScrapeAndCleanUp(cmd, env);
    }

    /** The scrape command on a set-up scraper, then the cleanup. */
    method ScrapeAndCleanUp(cmd: Command, env: Environment) returns (o: Outcome)
      requires cmd.IsScrape() && scraper.Some? && scraper.value.Valid()
      requires browser == Some(scraper.value.browser)
      modifies this, ScraperParts(scraper)
      ensures config == old(config) && browser == old(browser) && scraper == old(scraper)
      ensures browser.value.driver == None
      ensures o.Scraped? && (o.result.Some? ==> scraper.value.data == old(scraper.value.data) + o.result.value)
    {
      var result := RunScrape(cmd, env);
      Cleanup();
      o := Scraped(result);
    }
  }
}
