/**
 * src/core/config.py: the configuration dataclasses with their defaults,
 * the conversion of a loaded JSON document into a configuration (keys
 * present override the defaults, an unknown key is an error), the
 * fall-back to defaults on any load error, and the ConfigManager that
 * holds the current configuration.
 */
module Config {
  import opened Exceptions
  import opened Records

  /** A delay in seconds (a Python float). The dataclass stores any number,
      a negative one included; `time.sleep` is what rejects it. */
  type Seconds = real

  datatype BrowserConfig = BrowserConfig(
    browserType: string,
    headless: bool,
    windowSize: (int, int),
    implicitWait: int,
    pageLoadTimeout: int,
    disableGpu: bool,
    disableImages: bool,
    userAgent: Option<string>)

  datatype ScrapingConfig = ScrapingConfig(
    defaultDelay: Seconds,
    retryAttempts: int,
    retryDelay: Seconds,
    respectRobotsTxt: bool,
    maxPages: int)

  datatype OutputConfig = OutputConfig(
    outputDir: string,
    outputFormat: string,
    filenamePrefix: string,
    includeTimestamp: bool,
    createBackup: bool)

  datatype AppConfig = AppConfig(
    browser: BrowserConfig,
    scraping: ScrapingConfig,
    output: OutputConfig,
    logLevel: string,
    logFile: string)

  // ---------------------------------------------------------------------
  // Defaults (the dataclass field defaults).

  const DefaultBrowser := BrowserConfig("chrome", false, (1200, 800), 10, 30, true, false, None)
  const DefaultScraping := ScrapingConfig(1.0, 3, 2.0, true, 100)
  const DefaultOutput := OutputConfig("output", "json", "scraped_data", true, true)

  /** `_create_default_config()`. */
  function DefaultConfig(): (c: AppConfig)
    ensures c.browser.browserType == "chrome" && !c.browser.headless
    ensures c.browser.windowSize == (1200, 800)
    ensures c.browser.implicitWait == 10 && c.browser.pageLoadTimeout == 30
    ensures c.browser.disableGpu && !c.browser.disableImages && c.browser.userAgent == None
    ensures c.scraping.defaultDelay == 1.0 && c.scraping.retryAttempts == 3
    ensures c.scraping.retryDelay == 2.0 && c.scraping.respectRobotsTxt && c.scraping.maxPages == 100
    ensures c.output == OutputConfig("output", "json", "scraped_data", true, true)
    ensures c.logLevel == "INFO" && c.logFile == "scraper.log"
  {
    AppConfig(DefaultBrowser, DefaultScraping, DefaultOutput, "INFO", "scraper.log")
  }

  // ---------------------------------------------------------------------
  // Each section as a record of JSON values (`dataclasses.asdict`).

  datatype FieldType = TStr | TBool | TInt | TSeconds | TPair | TOptStr

  type Schema = seq<(string, FieldType)>

  const BrowserSchema: Schema := [
    ("browser_type", TStr), ("headless", TBool), ("window_size", TPair),
    ("implicit_wait", TInt), ("page_load_timeout", TInt), ("disable_gpu", TBool),
    ("disable_images", TBool), ("user_agent", TOptStr)]

  const ScrapingSchema: Schema := [
    ("default_delay", TSeconds), ("retry_attempts", TInt), ("retry_delay", TSeconds),
    ("respect_robots_txt", TBool), ("max_pages", TInt)]

  const OutputSchema: Schema := [
    ("output_dir", TStr), ("output_format", TStr), ("filename_prefix", TStr),
    ("include_timestamp", TBool), ("create_backup", TBool)]

  function TypeOf(schema: Schema, k: string): (t: Option<FieldType>)
    ensures t.Some? <==> exists i :: 0 <= i < |schema| && schema[i].0 == k
  {
    if schema == [] then None
    else if schema[0].0 == k then Some(schema[0].1)
    else TypeOf(schema[1..], k)
  }

  /** Whether a JSON value can be stored in a field of the given type. */
  predicate Fits(t: FieldType, v: Value) {
    match t
    case TStr => v.Str?
    case TBool => v.Bool?
    case TInt => v.Num?
    case TSeconds => v.Num? || v.Real?
    case TPair => v.List? && |v.items| == 2 && v.items[0].Num? && v.items[1].Num?
    case TOptStr => v.Null? || v.Str?
  }

  /** The value as the field stores it (an int given for a float field is
      read as that float). */
  function Canon(t: FieldType, v: Value): Value {
    if t == TSeconds && v.Num? then Real(v.n as real) else v
  }

  function BrowserToRecord(b: BrowserConfig): Record {
    [ Entry("browser_type", Str(b.browserType)),
      Entry("headless", Bool(b.headless)),
      Entry("window_size", List([Num(b.windowSize.0), Num(b.windowSize.1)])),
      Entry("implicit_wait", Num(b.implicitWait)),
      Entry("page_load_timeout", Num(b.pageLoadTimeout)),
      Entry("disable_gpu", Bool(b.disableGpu)),
      Entry("disable_images", Bool(b.disableImages)),
      Entry("user_agent", if b.userAgent.Some? then Str(b.userAgent.value) else Null) ]
  }

  function ScrapingToRecord(s: ScrapingConfig): Record {
    [ Entry("default_delay", Real(s.defaultDelay)),
      Entry("retry_attempts", Num(s.retryAttempts)),
      Entry("retry_delay", Real(s.retryDelay)),
      Entry("respect_robots_txt", Bool(s.respectRobotsTxt)),
      Entry("max_pages", Num(s.maxPages)) ]
  }

  function OutputToRecord(o: OutputConfig): Record {
    [ Entry("output_dir", Str(o.outputDir)),
      Entry("output_format", Str(o.outputFormat)),
      Entry("filename_prefix", Str(o.filenamePrefix)),
      Entry("include_timestamp", Bool(o.includeTimestamp)),
      Entry("create_backup", Bool(o.createBackup)) ]
  }

  /** `asdict(config)`, the document `save_config` writes. */
  function ConfigAsDict(c: AppConfig): Value {
    Dict([ Entry("browser", Dict(BrowserToRecord(c.browser))),
           Entry("scraping", Dict(ScrapingToRecord(c.scraping))),
           Entry("output", Dict(OutputToRecord(c.output))),
           Entry("log_level", Str(c.logLevel)),
           Entry("log_file", Str(c.logFile)) ])
  }

  function StrAt(r: Record, k: string, d: string): string {
    match Get(r, k) case Some(Str(s)) => s case _ => d
  }

  function BoolAt(r: Record, k: string, d: bool): bool {
    match Get(r, k) case Some(Bool(b)) => b case _ => d
  }

  function IntAt(r: Record, k: string, d: int): int {
    match Get(r, k) case Some(Num(n)) => n case _ => d
  }

  function SecondsAt(r: Record, k: string, d: Seconds): Seconds {
    match Get(r, k) case Some(Real(x)) => x case _ => d
  }

  function PairAt(r: Record, k: string, d: (int, int)): (int, int) {
    match Get(r, k)
    case Some(List(items)) => if |items| == 2 && items[0].Num? && items[1].Num? then (items[0].n, items[1].n) else d
    case _ => d
  }

  function OptStrAt(r: Record, k: string): Option<string> {
    match Get(r, k) case Some(Str(s)) => Some(s) case _ => None
  }

  function BrowserFromRecord(r: Record): BrowserConfig {
    BrowserConfig(
      StrAt(r, "browser_type", "chrome"), BoolAt(r, "headless", false),
      PairAt(r, "window_size", (1200, 800)), IntAt(r, "implicit_wait", 10),
      IntAt(r, "page_load_timeout", 30), BoolAt(r, "disable_gpu", true),
      BoolAt(r, "disable_images", false), OptStrAt(r, "user_agent"))
  }

  function ScrapingFromRecord(r: Record): ScrapingConfig {
    ScrapingConfig(
      SecondsAt(r, "default_delay", 1.0), IntAt(r, "retry_attempts", 3),
      SecondsAt(r, "retry_delay", 2.0), BoolAt(r, "respect_robots_txt", true),
      IntAt(r, "max_pages", 100))
  }

  function OutputFromRecord(r: Record): OutputConfig {
    OutputConfig(
      StrAt(r, "output_dir", "output"), StrAt(r, "output_format", "json"),
      StrAt(r, "filename_prefix", "scraped_data"), BoolAt(r, "include_timestamp", true),
      BoolAt(r, "create_backup", true))
  }

  // ---------------------------------------------------------------------
  // `BrowserConfig(**browser_data)` and its siblings.

  /** Keyword arguments applied over the defaults: every key must name a
      field (else Python's TypeError "unexpected keyword argument") and its
      value must fit the field. */
  function Overlay(base: Record, e: Record, schema: Schema, className: string): (r: Result<Record>)
    decreases |e|
  {
    if e == [] then Ok(base)
    else
      var k := e[0].key;
      match TypeOf(schema, k)
      case None => Err(Error(LookupError, className + ".__init__() got an unexpected keyword argument '" + k + "'"))
      case Some(t) =>
        if !Fits(t, e[0].value) then Err(Error(Configuration, className + ": invalid value for '" + k + "'"))
        else Overlay(Put(base, k, Canon(t, e[0].value)), e[1..], schema, className)
  }

  /** The conversion succeeds exactly when every key names a field and its
      value fits; then a key present takes the given value and a key absent
      keeps the default. */
  lemma {:induction false} OverlaySemantics(base: Record, e: Record, schema: Schema, className: string)
    requires UniqueKeys(e)
    ensures Overlay(base, e, schema, className).Ok? <==>
      forall i :: 0 <= i < |e| ==> TypeOf(schema, e[i].key).Some? && Fits(TypeOf(schema, e[i].key).value, e[i].value)
    ensures Overlay(base, e, schema, className).Ok? ==>
      forall i :: 0 <= i < |e| ==>
        Get(Overlay(base, e, schema, className).value, e[i].key) == Some(Canon(TypeOf(schema, e[i].key).value, e[i].value))
    ensures Overlay(base, e, schema, className).Ok? ==>
      forall k :: k !in Keys(e) ==> Get(Overlay(base, e, schema, className).value, k) == Get(base, k)
    decreases |e|
  {
    if e != [] {
      var k := e[0].key;
      var rest := e[1..];
      assert UniqueKeys(rest);
      assert k !in Keys(rest) by {
        forall j | 0 <= j < |rest| ensures rest[j].key != k { assert rest[j] == e[j + 1]; }
      }
      match TypeOf(schema, k)
      case None =>
      case Some(t) =>
        if Fits(t, e[0].value) {
          var base' := Put(base, k, Canon(t, e[0].value));
          OverlaySemantics(base', rest, schema, className);
          PutGet(base, k, Canon(t, e[0].value));
          if Overlay(base, e, schema, className).Ok? {
            var r := Overlay(base, e, schema, className).value;
            forall i | 0 <= i < |e|
              ensures Get(r, e[i].key) == Some(Canon(TypeOf(schema, e[i].key).value, e[i].value))
            {
              if i > 0 { assert e[i] == rest[i - 1]; }
            }
            forall k' | k' !in Keys(e) ensures Get(r, k') == Get(base, k') {
              assert Keys(e)[0] == k;
            }
          }
        }
    }
  }

  /** `data.get(name, {})`, which must be a dict for the `**` expansion. */
  function Section(entries: Record, name: string): Result<Record> {
    match Get(entries, name)
    case None => Ok([])
    case Some(Dict(e)) => Ok(e)
    case Some(_) => Err(Error(LookupError, "argument after ** must be a mapping"))
  }

  /** `data.get(name, default)` for a top-level string setting. */
  function TopLevelText(entries: Record, name: string, default: string): Result<string> {
    match Get(entries, name)
    case None => Ok(default)
    case Some(Str(s)) => Ok(s)
    case Some(_) => Err(Error(Configuration, "invalid value for '" + name + "'"))
  }

  /** `BrowserConfig(**data.get('browser', {}))`. */
  function BrowserSection(entries: Record): Result<BrowserConfig> {
    var e :- Section(entries, "browser");
    var r :- Overlay(BrowserToRecord(DefaultBrowser), e, BrowserSchema, "BrowserConfig");
    Ok(BrowserFromRecord(r))
  }

  function ScrapingSection(entries: Record): Result<ScrapingConfig> {
    var e :- Section(entries, "scraping");
    var r :- Overlay(ScrapingToRecord(DefaultScraping), e, ScrapingSchema, "ScrapingConfig");
    Ok(ScrapingFromRecord(r))
  }

  function OutputSection(entries: Record): Result<OutputConfig> {
    var e :- Section(entries, "output");
    var r :- Overlay(OutputToRecord(DefaultOutput), e, OutputSchema, "OutputConfig");
    Ok(OutputFromRecord(r))
  }

  /** `_dict_to_config(data)`: the sections are converted in order, then the
      two top-level settings are read. */
  function DictToConfig(data: Value): Result<AppConfig> {
    match data
    case Dict(entries) =>
      var b :- BrowserSection(entries);
      var s :- ScrapingSection(entries);
      var o :- OutputSection(entries);
      var level :- TopLevelText(entries, "log_level", "INFO");
      var file :- TopLevelText(entries, "log_file", "scraper.log");
      Ok(AppConfig(b, s, o, level, file))
    case _ => Err(Error(LookupError, "object has no attribute 'get'"))
  }

  /** Each field of the browser record reads back under its key. */
  lemma BrowserRecordReads(b: BrowserConfig)
    ensures Get(BrowserToRecord(b), "browser_type") == Some(Str(b.browserType))
    ensures Get(BrowserToRecord(b), "headless") == Some(Bool(b.headless))
    ensures Get(BrowserToRecord(b), "window_size") == Some(List([Num(b.windowSize.0), Num(b.windowSize.1)]))
    ensures Get(BrowserToRecord(b), "implicit_wait") == Some(Num(b.implicitWait))
    ensures Get(BrowserToRecord(b), "page_load_timeout") == Some(Num(b.pageLoadTimeout))
    ensures Get(BrowserToRecord(b), "disable_gpu") == Some(Bool(b.disableGpu))
    ensures Get(BrowserToRecord(b), "disable_images") == Some(Bool(b.disableImages))
    ensures Get(BrowserToRecord(b), "user_agent") == Some(if b.userAgent.Some? then Str(b.userAgent.value) else Null)
  {
    var r := BrowserToRecord(b);
    BrowserKeysUnique(b);
    GetAt(r, 0);
    GetAt(r, 1);
    GetAt(r, 2);
    GetAt(r, 3);
    GetAt(r, 4);
    GetAt(r, 5);
    GetAt(r, 6);
    GetAt(r, 7);
  }

  /** Reading a section back from its record gives the section. */
  lemma BrowserRoundTrip(b: BrowserConfig)
    ensures BrowserFromRecord(BrowserToRecord(b)) == b
  {
    BrowserRecordReads(b);
    var c := BrowserFromRecord(BrowserToRecord(b));
    assert c.windowSize == b.windowSize;
    assert c.userAgent == b.userAgent;
  }

  lemma BrowserKeysUnique(b: BrowserConfig)
    ensures UniqueKeys(BrowserToRecord(b))
  {
  }

  /** Each field of the scraping record reads back under its key. */
  lemma ScrapingRecordReads(s: ScrapingConfig)
    ensures Get(ScrapingToRecord(s), "default_delay") == Some(Real(s.defaultDelay))
    ensures Get(ScrapingToRecord(s), "retry_attempts") == Some(Num(s.retryAttempts))
    ensures Get(ScrapingToRecord(s), "retry_delay") == Some(Real(s.retryDelay))
    ensures Get(ScrapingToRecord(s), "respect_robots_txt") == Some(Bool(s.respectRobotsTxt))
    ensures Get(ScrapingToRecord(s), "max_pages") == Some(Num(s.maxPages))
  {
    var r := ScrapingToRecord(s);
    assert UniqueKeys(r);
    GetAt(r, 0);
    GetAt(r, 1);
    GetAt(r, 2);
    GetAt(r, 3);
    GetAt(r, 4);
  }

  lemma ScrapingRoundTrip(s: ScrapingConfig)
    ensures ScrapingFromRecord(ScrapingToRecord(s)) == s
  {
    ScrapingRecordReads(s);
  }

  /** Each field of the output record reads back under its key. */
  lemma OutputRecordReads(o: OutputConfig)
    ensures Get(OutputToRecord(o), "output_dir") == Some(Str(o.outputDir))
    ensures Get(OutputToRecord(o), "output_format") == Some(Str(o.outputFormat))
    ensures Get(OutputToRecord(o), "filename_prefix") == Some(Str(o.filenamePrefix))
    ensures Get(OutputToRecord(o), "include_timestamp") == Some(Bool(o.includeTimestamp))
    ensures Get(OutputToRecord(o), "create_backup") == Some(Bool(o.createBackup))
  {
    var r := OutputToRecord(o);
    assert UniqueKeys(r);
    GetAt(r, 0);
    GetAt(r, 1);
    GetAt(r, 2);
    GetAt(r, 3);
    GetAt(r, 4);
  }

  lemma OutputRoundTrip(o: OutputConfig)
    ensures OutputFromRecord(OutputToRecord(o)) == o
  {
    OutputRecordReads(o);
  }

  /** An empty document, or one with no sections, gives the defaults. */
  lemma MissingSectionsDefault()
    ensures DictToConfig(Dict([])) == Ok(DefaultConfig())
  {
    BrowserRoundTrip(DefaultBrowser);
    ScrapingRoundTrip(DefaultScraping);
    OutputRoundTrip(DefaultOutput);
    assert BrowserSection([]) == Ok(DefaultBrowser);
    assert ScrapingSection([]) == Ok(DefaultScraping);
    assert OutputSection([]) == Ok(DefaultOutput);
  }

  /** A browser section whose keys all name fields, each with a value that
      fits, converts; each key it gives reads its given value, and every
      other field keeps its dataclass default. */
  lemma PresentKeyOverrides(entries: Record, e: Record)
    requires Get(entries, "browser") == Some(Dict(e))
    requires UniqueKeys(e)
    requires forall i :: 0 <= i < |e| ==>
      TypeOf(BrowserSchema, e[i].key).Some? && Fits(TypeOf(BrowserSchema, e[i].key).value, e[i].value)
    ensures BrowserSection(entries).Ok?
    ensures forall k :: k in Keys(e) ==> Get(BrowserToRecord(BrowserSection(entries).value), k) == Get(e, k)
    ensures forall k :: k !in Keys(e) ==>
      Get(BrowserToRecord(BrowserSection(entries).value), k) == Get(BrowserToRecord(DefaultBrowser), k)
  {
    var base := BrowserToRecord(DefaultBrowser);
    BrowserRecordFits(DefaultBrowser);
    assert forall j :: 0 <= j < |BrowserSchema| ==> BrowserSchema[j].1 != TSeconds;
    OverlayReads(base, e, BrowserSchema, "BrowserConfig");
    OverlayFits(base, e, BrowserSchema, "BrowserConfig");
    var r := Overlay(base, e, BrowserSchema, "BrowserConfig").value;
    assert BrowserSection(entries) == Ok(BrowserFromRecord(r));
    SchemaFits(r);
    BrowserRecordOfFitting(r);
  }

  /** Overlaying a fitting section on a schema without float fields: the
      given keys read their values and the others their base values. */
  lemma OverlayReads(base: Record, e: Record, schema: Schema, className: string)
    requires UniqueKeys(e)
    requires forall j :: 0 <= j < |schema| ==> schema[j].1 != TSeconds
    requires forall i :: 0 <= i < |e| ==>
      TypeOf(schema, e[i].key).Some? && Fits(TypeOf(schema, e[i].key).value, e[i].value)
    ensures Overlay(base, e, schema, className).Ok?
    ensures forall k :: k in Keys(e) ==> Get(Overlay(base, e, schema, className).value, k) == Get(e, k)
    ensures forall k :: k !in Keys(e) ==> Get(Overlay(base, e, schema, className).value, k) == Get(base, k)
  {
    OverlaySemantics(base, e, schema, className);
    var r := Overlay(base, e, schema, className).value;
    forall k | k in Keys(e) ensures Get(r, k) == Get(e, k) {
      var i :| 0 <= i < |e| && e[i].key == k;
      GetAt(e, i);
      TypeOfNotSeconds(schema, k);
    }
  }

  lemma {:induction false} TypeOfNotSeconds(schema: Schema, k: string)
    requires forall j :: 0 <= j < |schema| ==> schema[j].1 != TSeconds
    ensures TypeOf(schema, k) != Some(TSeconds)
  {
    if schema != [] && schema[0].0 != k {
      assert forall j :: 0 <= j < |schema[1..]| ==> schema[1..][j] == schema[j + 1];
      TypeOfNotSeconds(schema[1..], k);
    }
  }

  /** Overlaying a fitting section on a base record that follows the
      schema with fitting values: every field reads a fitting value, and
      no other key reads anything. */
  lemma OverlayFits(base: Record, e: Record, schema: Schema, className: string)
    requires UniqueKeys(e) && SchemaUnique(schema) && Follows(base, schema)
    requires forall j :: 0 <= j < |schema| ==> schema[j].1 != TSeconds
    requires forall j :: 0 <= j < |base| ==> Fits(schema[j].1, base[j].value)
    requires forall i :: 0 <= i < |e| ==>
      TypeOf(schema, e[i].key).Some? && Fits(TypeOf(schema, e[i].key).value, e[i].value)
    ensures Overlay(base, e, schema, className).Ok?
    ensures forall j :: 0 <= j < |schema| ==>
      Get(Overlay(base, e, schema, className).value, schema[j].0).Some? &&
      Fits(schema[j].1, Get(Overlay(base, e, schema, className).value, schema[j].0).value)
    ensures forall k :: TypeOf(schema, k).None? ==> Get(Overlay(base, e, schema, className).value, k) == None
  {
    OverlayReads(base, e, schema, className);
    var r := Overlay(base, e, schema, className).value;
    assert UniqueKeys(base) by {
      forall i, j | 0 <= i < j < |base| ensures base[i].key != base[j].key {
        assert base[i].key == schema[i].0 && base[j].key == schema[j].0;
      }
    }
    forall j | 0 <= j < |schema|
      ensures Get(r, schema[j].0).Some? && Fits(schema[j].1, Get(r, schema[j].0).value)
    {
      var k := schema[j].0;
      TypeOfAt(schema, j);
      if k in Keys(e) {
        var i :| 0 <= i < |e| && e[i].key == k;
        GetAt(e, i);
      } else {
        GetAt(base, j);
      }
    }
    forall k | TypeOf(schema, k).None? ensures Get(r, k) == None {
      assert k !in Keys(e);
      GetKeys(base, k);
    }
  }

  lemma SchemaFits(r: Record)
    requires forall j :: 0 <= j < |BrowserSchema| ==>
      Get(r, BrowserSchema[j].0).Some? && Fits(BrowserSchema[j].1, Get(r, BrowserSchema[j].0).value)
    ensures BrowserFits(r)
  {
    assert BrowserSchema[0] == ("browser_type", TStr) && BrowserSchema[1] == ("headless", TBool);
    assert BrowserSchema[2] == ("window_size", TPair) && BrowserSchema[3] == ("implicit_wait", TInt);
    assert BrowserSchema[4] == ("page_load_timeout", TInt) && BrowserSchema[5] == ("disable_gpu", TBool);
    assert BrowserSchema[6] == ("disable_images", TBool) && BrowserSchema[7] == ("user_agent", TOptStr);
  }

  /** A record holding a fitting value for every browser field, and nothing
      else, is what the configuration it converts to turns back into. */
  lemma BrowserRecordOfFitting(r: Record)
    requires BrowserFits(r)
    requires forall k :: TypeOf(BrowserSchema, k).None? ==> Get(r, k) == None
    ensures forall k :: Get(BrowserToRecord(BrowserFromRecord(r)), k) == Get(r, k)
  {
    var t := BrowserToRecord(BrowserFromRecord(r));
    BrowserFieldsBack(r);
    BrowserKeys(BrowserFromRecord(r));
    forall k ensures Get(t, k) == Get(r, k) {
      GetKeys(t, k);
      if k !in Keys(t) {
        NotBrowserField(k);
      }
    }
  }

  lemma BrowserFieldsBack(r: Record)
    requires BrowserFits(r)
    ensures var t := BrowserToRecord(BrowserFromRecord(r));
      Get(t, "browser_type") == Get(r, "browser_type") && Get(t, "headless") == Get(r, "headless") &&
      Get(t, "window_size") == Get(r, "window_size") && Get(t, "implicit_wait") == Get(r, "implicit_wait") &&
      Get(t, "page_load_timeout") == Get(r, "page_load_timeout") && Get(t, "disable_gpu") == Get(r, "disable_gpu") &&
      Get(t, "disable_images") == Get(r, "disable_images") && Get(t, "user_agent") == Get(r, "user_agent")
  {
    BrowserRecordReads(BrowserFromRecord(r));
    var w := Get(r, "window_size").value;
    assert w == List([Num(w.items[0].n), Num(w.items[1].n)]);
  }

  lemma BrowserKeys(b: BrowserConfig)
    ensures Keys(BrowserToRecord(b)) == ["browser_type", "headless", "window_size", "implicit_wait",
      "page_load_timeout", "disable_gpu", "disable_images", "user_agent"]
  {
  }

  lemma NotBrowserField(k: string)
    requires k !in ["browser_type", "headless", "window_size", "implicit_wait",
      "page_load_timeout", "disable_gpu", "disable_images", "user_agent"]
    ensures TypeOf(BrowserSchema, k).None?
  {
  }

  /** Every browser field reads a value of its type. */
  predicate BrowserFits(r: Record) {
    Get(r, "browser_type").Some? && Fits(TStr, Get(r, "browser_type").value) &&
    Get(r, "headless").Some? && Fits(TBool, Get(r, "headless").value) &&
    Get(r, "window_size").Some? && Fits(TPair, Get(r, "window_size").value) &&
    Get(r, "implicit_wait").Some? && Fits(TInt, Get(r, "implicit_wait").value) &&
    Get(r, "page_load_timeout").Some? && Fits(TInt, Get(r, "page_load_timeout").value) &&
    Get(r, "disable_gpu").Some? && Fits(TBool, Get(r, "disable_gpu").value) &&
    Get(r, "disable_images").Some? && Fits(TBool, Get(r, "disable_images").value) &&
    Get(r, "user_agent").Some? && Fits(TOptStr, Get(r, "user_agent").value)
  }

  /** The `headless: true` document used by the `--config` example: only
      the headless flag differs from the defaults. */
  lemma HeadlessDocument()
    ensures DictToConfig(Dict([Entry("browser", Dict([Entry("headless", Bool(true))]))])) ==
      Ok(DefaultConfig().(browser := DefaultBrowser.(headless := true)))
  {
    var e := [Entry("headless", Bool(true))];
    var top := [Entry("browser", Dict(e))];
    HeadlessOverlay();
    assert Section(top, "browser") == Ok(e);
    assert BrowserSection(top) == Ok(DefaultBrowser.(headless := true));
    assert Get(top, "scraping") == None && Get(top, "output") == None;
    assert Get(top, "log_level") == None;
    assert Get(top, "log_file") == None by { assert top[0].key != "log_file"; }
    MissingSectionDefaults(top);
    ConfigFromParts(DefaultConfig().(browser := DefaultBrowser.(headless := true)), top);
  }

  /** Overlaying only the headless flag on the browser defaults. */
  lemma HeadlessOverlay()
    ensures Overlay(BrowserToRecord(DefaultBrowser), [Entry("headless", Bool(true))], BrowserSchema, "BrowserConfig")
      == Ok(BrowserToRecord(DefaultBrowser.(headless := true)))
    ensures BrowserFromRecord(BrowserToRecord(DefaultBrowser.(headless := true))) == DefaultBrowser.(headless := true)
  {
    var base := BrowserToRecord(DefaultBrowser);
    assert Overlay(base, [Entry("headless", Bool(true))], BrowserSchema, "BrowserConfig") == Ok(Put(base, "headless", Bool(true)));
    assert Put(base, "headless", Bool(true)) == BrowserToRecord(DefaultBrowser.(headless := true));
    BrowserRoundTrip(DefaultBrowser.(headless := true));
  }

  /** A section or top-level key the document does not have takes its
      defaults. */
  lemma MissingSectionDefaults(entries: Record)
    ensures Get(entries, "browser") == None ==> BrowserSection(entries) == Ok(DefaultBrowser)
    ensures Get(entries, "scraping") == None ==> ScrapingSection(entries) == Ok(DefaultScraping)
    ensures Get(entries, "output") == None ==> OutputSection(entries) == Ok(DefaultOutput)
    ensures Get(entries, "log_level") == None ==> TopLevelText(entries, "log_level", "INFO") == Ok("INFO")
    ensures Get(entries, "log_file") == None ==> TopLevelText(entries, "log_file", "scraper.log") == Ok("scraper.log")
  {
    BrowserRoundTrip(DefaultBrowser);
    ScrapingRoundTrip(DefaultScraping);
    OutputRoundTrip(DefaultOutput);
    assert Overlay(BrowserToRecord(DefaultBrowser), [], BrowserSchema, "BrowserConfig") == Ok(BrowserToRecord(DefaultBrowser));
    assert Overlay(ScrapingToRecord(DefaultScraping), [], ScrapingSchema, "ScrapingConfig") == Ok(ScrapingToRecord(DefaultScraping));
    assert Overlay(OutputToRecord(DefaultOutput), [], OutputSchema, "OutputConfig") == Ok(OutputToRecord(DefaultOutput));
  }

  predicate SchemaUnique(schema: Schema) {
    forall i, j :: 0 <= i < j < |schema| ==> schema[i].0 != schema[j].0
  }

  lemma {:induction false} TypeOfAt(schema: Schema, i: nat)
    requires SchemaUnique(schema) && i < |schema|
    ensures TypeOf(schema, schema[i].0) == Some(schema[i].1)
  {
    if i > 0 {
      assert schema[1..][i - 1] == schema[i];
      TypeOfAt(schema[1..], i - 1);
    }
  }

  /** The record has one entry per field of the schema, in schema order. */
  predicate Follows(r: Record, schema: Schema) {
    |r| == |schema| && forall i :: 0 <= i < |r| ==> r[i].key == schema[i].0
  }

  /** A section that gives every field of the schema, each with a value
      the field stores unchanged, reads back exactly as given. */
  lemma OverlayComplete(base: Record, e: Record, schema: Schema, className: string)
    requires SchemaUnique(schema) && Follows(base, schema) && Follows(e, schema)
    requires forall i :: 0 <= i < |e| ==> Fits(schema[i].1, e[i].value) && Canon(schema[i].1, e[i].value) == e[i].value
    ensures Overlay(base, e, schema, className).Ok?
    ensures forall k :: Get(Overlay(base, e, schema, className).value, k) == Get(e, k)
  {
    assert UniqueKeys(e);
    forall i | 0 <= i < |e| ensures TypeOf(schema, e[i].key) == Some(schema[i].1) { TypeOfAt(schema, i); }
    OverlaySemantics(base, e, schema, className);
    var r := Overlay(base, e, schema, className).value;
    forall k ensures Get(r, k) == Get(e, k) {
      GetKeys(e, k);
      if k in Keys(e) {
        var i :| 0 <= i < |e| && e[i].key == k;
        GetAt(e, i);
      } else {
        GetKeys(base, k);
        assert k !in Keys(base) by {
          forall i | 0 <= i < |base| ensures base[i].key != k { assert base[i].key == e[i].key; }
        }
      }
    }
  }

  lemma BrowserFromGet(r1: Record, r2: Record)
    requires forall k :: Get(r1, k) == Get(r2, k)
    ensures BrowserFromRecord(r1) == BrowserFromRecord(r2)
  {
    assert Get(r1, "browser_type") == Get(r2, "browser_type");
    assert Get(r1, "headless") == Get(r2, "headless");
    assert Get(r1, "window_size") == Get(r2, "window_size");
    assert Get(r1, "implicit_wait") == Get(r2, "implicit_wait");
    assert Get(r1, "page_load_timeout") == Get(r2, "page_load_timeout");
    assert Get(r1, "disable_gpu") == Get(r2, "disable_gpu");
    assert Get(r1, "disable_images") == Get(r2, "disable_images");
    assert Get(r1, "user_agent") == Get(r2, "user_agent");
  }

  lemma ScrapingFromGet(r1: Record, r2: Record)
    requires forall k :: Get(r1, k) == Get(r2, k)
    ensures ScrapingFromRecord(r1) == ScrapingFromRecord(r2)
  {
  }

  lemma OutputFromGet(r1: Record, r2: Record)
    requires forall k :: Get(r1, k) == Get(r2, k)
    ensures OutputFromRecord(r1) == OutputFromRecord(r2)
  {
  }

  /** The browser record follows its schema field by field, with values the
      fields store unchanged. */
  lemma BrowserSchemaUnique()
    ensures SchemaUnique(BrowserSchema)
  {
  }

  lemma BrowserRecordFits(b: BrowserConfig)
    ensures SchemaUnique(BrowserSchema)
    ensures Follows(BrowserToRecord(DefaultBrowser), BrowserSchema) && Follows(BrowserToRecord(b), BrowserSchema)
    ensures forall i :: 0 <= i < |BrowserToRecord(b)| ==>
      Fits(BrowserSchema[i].1, BrowserToRecord(b)[i].value) && Canon(BrowserSchema[i].1, BrowserToRecord(b)[i].value) == BrowserToRecord(b)[i].value
  {
    BrowserSchemaUnique();
  }

  lemma BrowserSectionReadsBack(b: BrowserConfig)
    ensures Overlay(BrowserToRecord(DefaultBrowser), BrowserToRecord(b), BrowserSchema, "BrowserConfig").Ok?
    ensures BrowserFromRecord(Overlay(BrowserToRecord(DefaultBrowser), BrowserToRecord(b), BrowserSchema, "BrowserConfig").value) == b
  {
    var e := BrowserToRecord(b);
    BrowserRecordFits(b);
    OverlayComplete(BrowserToRecord(DefaultBrowser), e, BrowserSchema, "BrowserConfig");
    BrowserFromGet(Overlay(BrowserToRecord(DefaultBrowser), e, BrowserSchema, "BrowserConfig").value, e);
    BrowserRoundTrip(b);
  }

  /** The scraping record follows its schema field by field, with values the
      fields store unchanged. */
  lemma ScrapingRecordFits(s: ScrapingConfig)
    ensures SchemaUnique(ScrapingSchema)
    ensures Follows(ScrapingToRecord(DefaultScraping), ScrapingSchema) && Follows(ScrapingToRecord(s), ScrapingSchema)
    ensures forall i :: 0 <= i < |ScrapingToRecord(s)| ==>
      Fits(ScrapingSchema[i].1, ScrapingToRecord(s)[i].value) && Canon(ScrapingSchema[i].1, ScrapingToRecord(s)[i].value) == ScrapingToRecord(s)[i].value
  {
  }

  lemma ScrapingSectionReadsBack(s: ScrapingConfig)
    ensures Overlay(ScrapingToRecord(DefaultScraping), ScrapingToRecord(s), ScrapingSchema, "ScrapingConfig").Ok?
    ensures ScrapingFromRecord(Overlay(ScrapingToRecord(DefaultScraping), ScrapingToRecord(s), ScrapingSchema, "ScrapingConfig").value) == s
  {
    var e := ScrapingToRecord(s);
    ScrapingRecordFits(s);
    OverlayComplete(ScrapingToRecord(DefaultScraping), e, ScrapingSchema, "ScrapingConfig");
    ScrapingFromGet(Overlay(ScrapingToRecord(DefaultScraping), e, ScrapingSchema, "ScrapingConfig").value, e);
    ScrapingRoundTrip(s);
  }

  /** The output record follows its schema field by field, with values the
      fields store unchanged. */
  lemma OutputRecordFits(o: OutputConfig)
    ensures SchemaUnique(OutputSchema)
    ensures Follows(OutputToRecord(DefaultOutput), OutputSchema) && Follows(OutputToRecord(o), OutputSchema)
    ensures forall i :: 0 <= i < |OutputToRecord(o)| ==>
      Fits(OutputSchema[i].1, OutputToRecord(o)[i].value) && Canon(OutputSchema[i].1, OutputToRecord(o)[i].value) == OutputToRecord(o)[i].value
  {
  }

  lemma OutputSectionReadsBack(o: OutputConfig)
    ensures Overlay(OutputToRecord(DefaultOutput), OutputToRecord(o), OutputSchema, "OutputConfig").Ok?
    ensures OutputFromRecord(Overlay(OutputToRecord(DefaultOutput), OutputToRecord(o), OutputSchema, "OutputConfig").value) == o
  {
    var e := OutputToRecord(o);
    OutputRecordFits(o);
    OverlayComplete(OutputToRecord(DefaultOutput), e, OutputSchema, "OutputConfig");
    OutputFromGet(Overlay(OutputToRecord(DefaultOutput), e, OutputSchema, "OutputConfig").value, e);
    OutputRoundTrip(o);
  }

  lemma SavedSectionsRead(c: AppConfig)
    ensures Section(ConfigAsDict(c).entries, "browser") == Ok(BrowserToRecord(c.browser))
    ensures Section(ConfigAsDict(c).entries, "scraping") == Ok(ScrapingToRecord(c.scraping))
    ensures Section(ConfigAsDict(c).entries, "output") == Ok(OutputToRecord(c.output))
    ensures TopLevelText(ConfigAsDict(c).entries, "log_level", "INFO") == Ok(c.logLevel)
    ensures TopLevelText(ConfigAsDict(c).entries, "log_file", "scraper.log") == Ok(c.logFile)
  {
    ConfigDictReads(c);
  }

  /** Each top-level entry of the saved document reads back under its key. */
  lemma ConfigDictReads(c: AppConfig)
    ensures Get(ConfigAsDict(c).entries, "browser") == Some(Dict(BrowserToRecord(c.browser)))
    ensures Get(ConfigAsDict(c).entries, "scraping") == Some(Dict(ScrapingToRecord(c.scraping)))
    ensures Get(ConfigAsDict(c).entries, "output") == Some(Dict(OutputToRecord(c.output)))
    ensures Get(ConfigAsDict(c).entries, "log_level") == Some(Str(c.logLevel))
    ensures Get(ConfigAsDict(c).entries, "log_file") == Some(Str(c.logFile))
  {
    var top := ConfigAsDict(c).entries;
    assert UniqueKeys(top);
    GetAt(top, 0);
    GetAt(top, 1);
    GetAt(top, 2);
    GetAt(top, 3);
    GetAt(top, 4);
  }

  lemma SavedSectionsConvert(c: AppConfig)
    ensures BrowserSection(ConfigAsDict(c).entries) == Ok(c.browser)
    ensures ScrapingSection(ConfigAsDict(c).entries) == Ok(c.scraping)
    ensures OutputSection(ConfigAsDict(c).entries) == Ok(c.output)
  {
    SavedSectionsRead(c);
    BrowserSectionReadsBack(c.browser);
    ScrapingSectionReadsBack(c.scraping);
    OutputSectionReadsBack(c.output);
  }

  lemma ConfigFromParts(c: AppConfig, top: Record)
    requires BrowserSection(top) == Ok(c.browser)
    requires ScrapingSection(top) == Ok(c.scraping)
    requires OutputSection(top) == Ok(c.output)
    requires TopLevelText(top, "log_level", "INFO") == Ok(c.logLevel)
    requires TopLevelText(top, "log_file", "scraper.log") == Ok(c.logFile)
    ensures DictToConfig(Dict(top)) == Ok(c)
  {
  }

  /** What `save_config` writes, `_load_config` reads back unchanged. */
  lemma SaveLoadRoundTrip(c: AppConfig)
    ensures DictToConfig(ConfigAsDict(c)) == Ok(c)
  {
    SavedSectionsRead(c);
    SavedSectionsConvert(c);
    ConfigFromParts(c, ConfigAsDict(c).entries);
  }

  /** An unknown key in a section makes the conversion fail. */
  lemma UnknownKeyFails(k: string)
    requires TypeOf(BrowserSchema, k).None?
    ensures DictToConfig(Dict([Entry("browser", Dict([Entry(k, Bool(true))]))])).Err?
  {
  }

  /** `_load_config()`: `file` is None when the file does not exist, and
      otherwise the outcome of reading and parsing it as JSON. */
  function LoadConfig(file: Option<Result<Value>>): (c: AppConfig) {
    match file
    case None => DefaultConfig()
    case Some(Err(_)) => DefaultConfig()
    case Some(Ok(data)) =>
      match DictToConfig(data)
      case Ok(c) => c
      case Err(_) => DefaultConfig()
  }

  /** Any failure to load or convert falls back to the whole default
      configuration; a successful conversion is used as is. */
  lemma LoadFallsBack(file: Option<Result<Value>>)
    ensures (file.None? || file.value.Err? || DictToConfig(file.value.value).Err?) ==> LoadConfig(file) == DefaultConfig()
    ensures file.Some? && file.value.Ok? && DictToConfig(file.value.value).Ok? ==>
      LoadConfig(file) == DictToConfig(file.value.value).value
  {
  }

  // ---------------------------------------------------------------------
  // `update_config(**kwargs)`: setattr for the attributes AppConfig has.

  datatype Setting =
    | BrowserSetting(b: BrowserConfig)
    | ScrapingSetting(s: ScrapingConfig)
    | OutputSetting(o: OutputConfig)
    | TextSetting(text: string)

  /** `setattr(config, key, value)` when `hasattr(config, key)`. */
  function SetAttr(c: AppConfig, key: string, v: Setting): AppConfig {
    match (key, v)
    case ("browser", BrowserSetting(b)) => c.(browser := b)
    case ("scraping", ScrapingSetting(s)) => c.(scraping := s)
    case ("output", OutputSetting(o)) => c.(output := o)
    case ("log_level", TextSetting(t)) => c.(logLevel := t)
    case ("log_file", TextSetting(t)) => c.(logFile := t)
    case _ => c
  }

  predicate IsAttribute(key: string) {
    key in {"browser", "scraping", "output", "log_level", "log_file"}
  }

  function ApplySettings(c: AppConfig, kwargs: seq<(string, Setting)>): AppConfig
    decreases |kwargs|
  {
    if kwargs == [] then c else ApplySettings(SetAttr(c, kwargs[0].0, kwargs[0].1), kwargs[1..])
  }

  /** Keys that are not attributes of the configuration are ignored. */
  lemma {:induction false} UnknownSettingsIgnored(c: AppConfig, kwargs: seq<(string, Setting)>)
    requires forall i :: 0 <= i < |kwargs| ==> !IsAttribute(kwargs[i].0)
    ensures ApplySettings(c, kwargs) == c
    decreases |kwargs|
  {
    if kwargs != [] {
      UnknownSettingsIgnored(c, kwargs[1..]);
    }
  }

  /** Settings on different attributes do not interfere: the log level is the
      last one given for it. */
  lemma {:induction false} LastLogLevelWins(c: AppConfig, kwargs: seq<(string, Setting)>, t: string)
    requires forall i :: 0 <= i < |kwargs| ==> kwargs[i].0 != "log_level"
    ensures ApplySettings(c, kwargs + [("log_level", TextSetting(t))]).logLevel == t
    ensures ApplySettings(c, kwargs).logLevel == c.logLevel
    decreases |kwargs|
  {
    if kwargs != [] {
      assert (kwargs + [("log_level", TextSetting(t))])[1..] == kwargs[1..] + [("log_level", TextSetting(t))];
      LastLogLevelWins(SetAttr(c, kwargs[0].0, kwargs[0].1), kwargs[1..], t);
    }
  }

  /** The configuration manager: the path of its file and the current
      configuration. */
  class ConfigManager {
    var configFile: string
    var config: AppConfig
    /** The document last written by `save_config`, if any. */
    var saved: Option<Value>

    /** `ConfigManager(config_file)`: `file` is what reading the file gave. */
    constructor (configFile: string, file: Option<Result<Value>>)
      ensures this.configFile == configFile && config == LoadConfig(file) && saved == None
    {
      this.configFile := configFile;
      config := LoadConfig(file);
      saved := None;
    }

    /** `_load_config()` for the current file, given what reading it gave. */
    method Reload(file: Option<Result<Value>>)
      modifies this
      ensures config == LoadConfig(file)
      ensures configFile == old(configFile) && saved == old(saved)
    {
      config := LoadConfig(file);
    }

    method UpdateConfig(kwargs: seq<(string, Setting)>)
      modifies this
      ensures config == ApplySettings(old(config), kwargs)
      ensures configFile == old(configFile) && saved == old(saved)
    {
      var i := 0;
      while i < |kwargs|
        invariant 0 <= i <= |kwargs|
        invariant ApplySettings(old(config), kwargs) == ApplySettings(config, kwargs[i..])
        invariant configFile == old(configFile) && saved == old(saved)
      {
        assert kwargs[i..][1..] == kwargs[i + 1..];
        var key := kwargs[i].0;
        if IsAttribute(key) {
          config := SetAttr(config, key, kwargs[i].1);
        }
        i := i + 1;
      }
    }

    method SaveConfig()
      modifies this
      ensures saved == Some(ConfigAsDict(config))
      ensures config == old(config) && configFile == old(configFile)
    {
      saved := Some(ConfigAsDict(config));
    }

    /** `create_default_config_file()`: the defaults replace the current
        configuration and are written out. */
    method CreateDefaultConfigFile()
      modifies this
      ensures config == DefaultConfig()
      ensures saved == Some(ConfigAsDict(DefaultConfig()))
      ensures configFile == old(configFile)
    {
      config := DefaultConfig();
      SaveConfig();
    }
  }
}
