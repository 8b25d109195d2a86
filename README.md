# browserscraper, modelled in Dafny

browserscraper drives a real browser through Selenium and pulls data out of web pages:

- single or repeated records picked out by CSS selectors;
- HTML tables;
- links, images and forms;
- regular-expression matches over the page source.

The data it collects accumulates in a scraper session and can be exported as JSON, CSV, XML or text files. Around that engine sit several other parts:

- a browser manager with two states, driver absent and driver present;
- a JSON configuration with defaults;
- a command line that overrides the configuration and routes sub-commands;
- a stand-alone "click next and extract" automation loop;
- a URL work queue with a visited set;
- a navigation-pattern registry;
- the text-extraction log of the Qt web explorer.

This project models that core and proves what it promises:

- the value-resolution priority of an element;
- the single-item and container-scoped extraction with a global fallback;
- the header/`column_i` table naming;
- the link, image, form and pattern record shapes;
- the session counters and accumulator;
- the bounded exponential backoff of retries;
- the browser guards and history;
- the XML/CSV export shaping;
- the configuration overlay and its save/load round trip;
- the CLI override rules;
- the URL queue invariants;
- the traversal loop and its report;
- the explorer's construction order, URL normalisation and list operations.

The browser is abstract. A `Port.Page` is a value that answers locator queries with elements in document order. An element is a snapshot of text, attributes, innerHTML and a `stale` flag; reading a stale element raises. Selenium, the regex engine, `urljoin`/`urlparse`, JSON serialisation, the clock and the file system become parameters:

- a `Web` record of functions;
- a `Libraries` record of functions;
- the `Environment` record of the CLI;
- the directory listing held by `FileUtils.FileHandler`.

Sleeps are recorded as a list of delays. Python's dicts with insertion order and overwrite-in-place are `Records.Record`. Python exceptions are `Exceptions.Error` values with a kind and a message, and raising is a `Result`.

The modules follow the source:

| module | models |
|---|---|
| `Exceptions` | src/utils/exceptions.py |
| `Text` | the Python string operations used by the core |
| `Records` | the JSON-like values and dicts the core produces |
| `Port` | the abstract browser page |
| `BrowserManagement` | src/core/browser_manager.py |
| `Scraper` | src/core/scraper.py |
| `AutoExtractor` | selenium_auto_extractor.py |
| `Navigation` | advanced_navigation.py |
| `FileUtils` | src/utils/file_utils.py |
| `Config` | src/core/config.py |
| `Cli` | src/ui/cli.py |
| `WebExplorer` | web_explorer.py |

`scrape_custom_pattern` turns a match of a pattern with exactly one group into `{name: match}`, not `{name_0: match}`, because `re.findall` returns plain strings for such a pattern (src/core/scraper.py:413-416).

## Model

| member | source | states |
|---|---|---|
| Exceptions.Wrap | src/core/scraper.py:78 | a rewrapped exception has the new kind; its message is the prefix followed by the cause's message |
| Text.StripIsTrimmedSlice | src/core/scraper.py:133 | `strip()` returns a contiguous slice with no whitespace at either end; it is empty exactly when the input is all whitespace |
| Text.StripIdempotent | src/core/scraper.py:141 | stripping twice equals stripping once |
| Text.StripUnpadded | src/core/scraper.py:133 | a string with no whitespace at either end strips to itself |
| Text.LowerFacts | selenium_auto_extractor.py:77 | lowering keeps the length and folds each character independently |
| Text.ReplaceChar | src/utils/file_utils.py:108 | a single-character replace keeps the length and changes exactly the occurrences of the replaced character |
| Text.NatToString | src/core/scraper.py:198 | the decimal rendering of a number is non-empty and all digits |
| Text.ParseNatToString | src/core/scraper.py:198 | reading the decimal rendering back gives the number |
| Text.NatToStringInjective | src/core/scraper.py:198 | distinct numbers render differently, so the `column_i` and `name_i` keys are distinct |
| Text.StripTagsLeavesNoTag | src/core/scraper.py:147 | after `re.sub(r'<[^>]+>', '', s)` no match of the pattern is left |
| Text.StripTagsKeepsTagFree | src/core/scraper.py:147 | text with no tag is left unchanged |
| Text.StripTagsIdempotent | src/core/scraper.py:147 | the removal is a fixed point exactly on tag-free text, so applying it twice equals applying it once |
| Text.StripTagsChars | src/core/scraper.py:147 | the removal only deletes characters |
| Text.StripTagsExamples | src/core/scraper.py:147 | `<i>x</i>` becomes `x`, and `<>` is not a tag because the pattern needs at least one inner character |
| Records.GetKeys | src/core/scraper.py:87 | a dict lookup succeeds exactly for the dict's keys |
| Records.GetAt | src/core/scraper.py:87 | in a dict with distinct keys, each entry is what its key reads |
| Records.PutGet | src/core/scraper.py:87 | after `d[k] = v`, `k` reads `v` and every other key reads as before |
| Records.PutShape | src/core/scraper.py:199 | a new key is appended at the end, an existing key is overwritten in place, and the keys are the old keys plus `k` |
| Records.PutUnique | src/core/scraper.py:199 | dict assignment never creates a duplicate key |
| Records.StrRecord | src/core/scraper.py:414 | a record built from keys and strings has exactly those keys in order, each with its string |
| Port.ReadText | src/core/scraper.py:133 | reading `element.text` raises exactly on a stale element and otherwise gives the text |
| Port.ReadAttribute | src/core/scraper.py:139 | `get_attribute` raises exactly on a stale element; otherwise it gives None exactly when the attribute is absent |
| Port.AttributeOr | src/core/scraper.py:298-301 | `get_attribute(name) or default` gives a present non-empty value, and the default otherwise |
| Port.FindElements | src/core/scraper.py:103 | a lookup inside a stale element raises; otherwise it succeeds exactly when the engine answers, with the engine's matches |
| Port.FindElement | src/core/scraper.py:86 | `find_element` fails exactly when `find_elements` fails; it gives no element exactly when there are no matches, and otherwise the first match |
| Scraper.FirstTruthy | src/core/scraper.py:138-141 | the index of the first truthy attribute in priority order, or -1 exactly when none is truthy |
| Scraper.ElementValue | src/core/scraper.py:129-155 | a stale element gives ""; otherwise the stripped text when non-empty; else the stripped first truthy attribute among value, href, src, alt and title; else the stripped tag-free innerHTML |
| Scraper.ElementValueStripped | src/core/scraper.py:129-155 | every resolved value is already stripped |
| Scraper.BlankValueAttributeStops | src/core/scraper.py:138-141 | a whitespace-only `value` attribute resolves to "" and no later attribute is tried |
| Scraper.Found | src/core/scraper.py:86-89 | a field lookup raises exactly when `find_element` raises; it is None exactly when nothing matches, and otherwise the first match's resolved value |
| Scraper.FieldValueFacts | src/core/scraper.py:108-119 | a field value is a string or None; with a container it looks in the container first and falls back to the whole document; None means both missed; lookup errors escape |
| Scraper.ItemFromOk | src/core/scraper.py:84-91 | building an item fails exactly when some field's lookup raises |
| Scraper.ItemFromKeys | src/core/scraper.py:84-92 | the item's keys are exactly the selector names |
| Scraper.ItemFromUnique | src/core/scraper.py:84-92 | the item has no duplicate key |
| Scraper.ItemFromOthers | src/core/scraper.py:84-92 | keys that are not selector names are untouched |
| Scraper.ItemFromFields | src/core/scraper.py:84-92 | with distinct names, each field reads its own lookup's value, and a missing field reads None without stopping the others |
| Scraper.ExtractItem | src/core/scraper.py:80-92 | the selector loop builds the item that `Item` specifies |
| Scraper.ItemNonEmpty | src/core/scraper.py:121-122 | with at least one selector every item is non-empty, so the `if item_data` guard never drops one |
| Scraper.ItemsFromOnePerContainer | src/core/scraper.py:105-122 | there is one record per container, in container order, each built with that container as its scope |
| Scraper.ExtractMultipleItems | src/core/scraper.py:94-127 | the container loop computes `MultipleItems`: the first selector locates the containers, and no selectors raise an IndexError |
| Scraper.Keep | src/core/scraper.py:65 | the filter keeps at most as many records as it is given, and a record survives exactly when it is non-empty with some truthy value |
| Scraper.KeepInOrder | src/core/scraper.py:65 | the filter distributes over concatenation and keeps a single record exactly when it is informative, so the survivors keep their order and multiplicity |
| Scraper.KeepAppend | src/core/scraper.py:65 | the filter distributes over concatenation |
| Scraper.KeepOne | src/core/scraper.py:65 | a single record is kept exactly when it is informative |
| Scraper.AllMissingKeepsNothing | src/core/scraper.py:62-65 | a page where every selector misses gives an all-None item, which the filter drops |
| Scraper.ExtractPage | src/core/scraper.py:59-65 | page extraction propagates a lookup error, and otherwise returns exactly the informative items |
| Scraper.CellTexts | src/core/scraper.py:184 | the header texts are the stripped cell texts, one per cell, and a stale cell raises |
| Scraper.TableBody | src/core/scraper.py:190 | rows are read from the first `tbody` when there is one, and from the table itself otherwise |
| Scraper.RowRecordCells | src/core/scraper.py:196-199 | with distinct column names, cell i is keyed `headers[i]` when i is below the header count and `column_i` otherwise, with its resolved value |
| Scraper.ColumnNamesDistinct | src/core/scraper.py:198 | without headers the generated column names are distinct |
| Scraper.HeaderlessRow | src/core/scraper.py:198 | a header-less row has keys `column_0..column_n-1`, each once |
| Scraper.HeadedRow | src/core/scraper.py:198 | a row no longer than distinct headers is keyed by the headers in order |
| Scraper.RepeatedHeader | src/core/scraper.py:199 | a repeated header name keeps one key holding the last cell's value |
| Scraper.RowsFromOk | src/core/scraper.py:193-200 | the row loop fails exactly when some row's cell lookup raises |
| Scraper.RowsFromEveryRow | src/core/scraper.py:193-200 | when every row has cells, there is one record per row |
| Scraper.RowsFromInOrder | src/core/scraper.py:193-200 | record i comes from row i |
| Scraper.MissingTable | src/core/scraper.py:177 | a page without the table raises NoSuchElementException |
| Scraper.BuildRow | src/core/scraper.py:196-199 | the cell loop builds the row record `RowRecord` specifies |
| Scraper.ExtractTable | src/core/scraper.py:176-200 | the table extraction computes `TableRows`: table, optional headers, body choice and the row loop |
| Scraper.CollectRows | src/core/scraper.py:193-200 | the row loop computes `RowsFrom`, skipping rows without cells |
| Scraper.CollectMembers | src/core/scraper.py:238-252 | a record is collected exactly when some element shapes into it |
| Scraper.CollectNoneDropped | src/core/scraper.py:238-252 | when every element shapes, there is one record per element, in order |
| Scraper.CollectAppend | src/core/scraper.py:238-252 | collecting is compositional over concatenated element lists |
| Scraper.CollectRecords | src/core/scraper.py:290-304 | the per-element loop that skips failures computes `Collect` |
| Scraper.LinkRecord | src/core/scraper.py:239-250 | a link is kept exactly when readable with a non-empty href; its record is text, absolute href and that URL's domain, in that order |
| Scraper.LinksHaveDomains | src/core/scraper.py:238-250 | every scraped link record has the text/href/domain shape of some element with a non-empty href |
| Scraper.ImageRecord | src/core/scraper.py:291-302 | an image is kept exactly when readable with a non-empty src; its keys are src, alt, title, width and height, with the absolute src and the other attributes defaulting to '' |
| Scraper.InputRecord | src/core/scraper.py:355-362 | an input's keys are type, name, id, placeholder, value and required; type defaults to 'text', the others to '', and `required` means the attribute is present |
| Scraper.InputRecords | src/core/scraper.py:353-363 | one input record per input element, in order |
| Scraper.FormRecord | src/core/scraper.py:344-368 | a form is kept exactly when it and all its inputs are readable; its keys are action, method, name, id and inputs; action, name and id default to '', method defaults to 'GET', and inputs lists its input records |
| Scraper.FormKeepsInputs | src/core/scraper.py:353-363 | a readable form lists every one of its inputs |
| Scraper.ExtractForm | src/core/scraper.py:343-368 | the form loop computes `FormRecord` |
| Scraper.ReadInputs | src/core/scraper.py:353-363 | the input loop fails exactly when some input is stale, and otherwise gives the input records |
| Scraper.ExtractForms | src/core/scraper.py:341-368 | the form loop computes the collected form records |
| Scraper.GroupKeys | src/core/scraper.py:414 | group i is keyed `name_i` |
| Scraper.GroupKeysDistinct | src/core/scraper.py:414 | the group keys are pairwise distinct |
| Scraper.MatchRecordShape | src/core/scraper.py:413-416 | a plain match gives `{name: match}`; a tuple match gives one distinct key `name_i` per group, holding that group's string |
| Scraper.FlatMapAppend | src/core/scraper.py:405-427 | records come in pattern order, then match order |
| Scraper.BadPatternSkipped | src/core/scraper.py:418-419 | a pattern that fails to compile is skipped without affecting the others |
| Scraper.PatternItems | src/core/scraper.py:407 | `patterns.items()` gives a dict's entries, and any other decoded value raises AttributeError "'<type>' object has no attribute 'items'" |
| Scraper.StringPatterns | src/core/scraper.py:407-419 | the patterns that can match are at most the entries |
| Scraper.StringPatternsAppend | src/core/scraper.py:407-419 | keeping the string patterns distributes over concatenation |
| Scraper.NonStringPatternSkipped | src/core/scraper.py:409-419 | a pattern that is not a string makes `re.findall` raise TypeError, which the loop catches, so it is skipped without affecting the others |
| Scraper.StringPatternKept | src/core/scraper.py:407-416 | a string pattern keeps its place among the others |
| Scraper.StringPatternsStep | src/core/scraper.py:407-419 | one more entry adds the records of its pattern when the pattern is a string, and nothing otherwise |
| Scraper.AppendMatches | src/core/scraper.py:410-416 | the inner loop appends one record per match, in match order |
| Scraper.ExtractPatterns | src/core/scraper.py:405-419 | the pattern loop gives the records of the string patterns, pattern by pattern and match by match (`PatternRecords`) |
| Scraper.Scrape | src/core/scraper.py:50-78 | a scrape fails exactly when navigation raises, the default delay is negative (the ValueError `time.sleep` raises) or extraction raises, with the error wrapped into a ScrapingException. Any failure adds one to `errors`. `pages_visited` grows only after navigation returns. On success `items_extracted` grows by the number of records and `scraped_data` is extended by exactly them |
| Scraper.ScrapeKeepsTally | src/core/scraper.py:67-71 | every scrape keeps `items_extracted - len(scraped_data)` unchanged |
| Scraper.StatsRecord | src/core/scraper.py:438-442 | the stats copy has the three counters, the start time as stored and the duration since the start |
| Scraper.RetryWaits | src/core/scraper.py:485-492 | fewer waits than attempts, and wait k is `delay * 2^k` |
| Scraper.RetryFirstSuccess | src/core/scraper.py:484-488 | a success is the first attempt that succeeds, and every earlier attempt failed |
| Scraper.RetryAllFail | src/core/scraper.py:493-495 | when every attempt fails, the last failure is re-raised after `max_retries - 1` waits |
| Scraper.Retry | src/core/scraper.py:480-495 | the attempt loop computes `RetryFrom` |
| Scraper.WebScraper.constructor | src/core/scraper.py:23-35 | a new session has no data, zero counters and the given start time |
| Scraper.WebScraper.Begin | src/core/scraper.py:50-56 | navigation either fails with the wrapped error and one more error, or visits the page and counts it; then a negative default delay fails with the wrapped ValueError and one more error, and any other delay is slept |
| Scraper.WebScraper.Settle | src/core/scraper.py:64-78 | the extraction outcome updates the session as `Scrape` specifies |
| Scraper.WebScraper.ScrapePage | src/core/scraper.py:37-78 | scraping a page is `Scrape` over navigation and the filtered page items |
| Scraper.WebScraper.ScrapeTable | src/core/scraper.py:157-213 | scraping a table is `Scrape` over navigation and `TableRows` |
| Scraper.WebScraper.ScrapeLinks | src/core/scraper.py:215-265 | scraping links is `Scrape` over navigation and the link records |
| Scraper.WebScraper.ScrapeImages | src/core/scraper.py:267-317 | scraping images is `Scrape` over navigation and the image records |
| Scraper.WebScraper.ScrapeForms | src/core/scraper.py:319-381 | scraping forms is `Scrape` over navigation and the form records |
| Scraper.WebScraper.ScrapePatterns | src/core/scraper.py:383-432 | scraping patterns is `Scrape` over navigation and `PatternOutcome` of the page source: a `patterns` that is not a dict fails after the page is loaded and counts one error, and otherwise the string patterns' records are stored |
| Scraper.WebScraper.GetSessionStats | src/core/scraper.py:438-442 | the stats record of the current counters |
| Scraper.WebScraper.SaveData | src/core/scraper.py:444-473 | no data gives "" and writes nothing; with data, the save succeeds exactly when the export is writable (`SaveWritable`: a known format, exportable records, and no directory at the data or summary name); every failure is a ScrapingException prefixed "Failed to save data: "; an unknown format gives the wrapped OutputException |
| Scraper.WebScraper.ClearData | src/core/scraper.py:475-478 | clearing empties the data and keeps the counters |
| Scraper.WebScraper.RetryOperation | src/core/scraper.py:480-495 | a falsy `max_retries` or `delay` falls back to the configuration; the outcome is `RetryFrom`, and its waits are appended to the recorded sleeps |
| BrowserManagement.ChromeArgumentsOrder | src/core/browser_manager.py:60-88 | the Chrome arguments start with the window size and end with the three stability switches |
| BrowserManagement.ChromeSwitchesChosen | src/core/browser_manager.py:66-75 | `--headless`, `--disable-gpu` and the image switch are present exactly when their settings are on |
| BrowserManagement.ChromeUserAgentChosen | src/core/browser_manager.py:80-81 | a user-agent argument is present exactly when a user agent is configured |
| BrowserManagement.ChromeExperimentalOptions | src/core/browser_manager.py:74-88 | the image preference is set exactly when images are disabled, and automation switches are always excluded |
| BrowserManagement.FirefoxOptionsFor | src/core/browser_manager.py:92-112 | Firefox gets `--headless` exactly when configured, then width and height and no other argument, and exactly the user-agent and image preferences that are configured |
| BrowserManagement.LaunchOutcome | src/core/browser_manager.py:35-56 | a launch succeeds exactly when the driver starts; a WebDriverException and any other error give BrowserStartupException with their two different prefixes |
| BrowserManagement.UnsupportedBrowser | src/core/browser_manager.py:39-40 | another browser type raises BrowserStartupException naming the type |
| BrowserManagement.StartOutcomeDispatch | src/core/browser_manager.py:35-40 | "chrome" and "firefox" in any case launch that browser, and every other type is rejected |
| BrowserManagement.Visit | src/core/browser_manager.py:114-125 | a visit pushes the current page onto the back history and clears the forward history |
| BrowserManagement.Back | src/core/browser_manager.py:217-223 | back moves to the last history entry, or stays put with no history |
| BrowserManagement.Forward | src/core/browser_manager.py:225-231 | forward moves to the next forward entry, or stays put with none |
| BrowserManagement.BackForwardAfterVisit | src/core/browser_manager.py:217-231 | back after a visit returns to the previous page, and forward after that restores the visit |
| BrowserManagement.NavigateResult | src/core/browser_manager.py:114-125 | with no driver, navigation raises NavigationException; a driver error is rewrapped as NavigationException; a loaded page is visited |
| BrowserManagement.WaitTime | src/core/browser_manager.py:134 | a truthy timeout is used, and None or 0 falls back to `implicit_wait` |
| BrowserManagement.WaitResult | src/core/browser_manager.py:127-159 | an uninitialised wait raises the timeout exception; otherwise the wait succeeds exactly when the condition holds within the effective timeout, and always fails as a timeout |
| BrowserManagement.BrowserManager.constructor | src/core/browser_manager.py:24-28 | a new manager has neither driver nor wait |
| BrowserManagement.BrowserManager.StartBrowser | src/core/browser_manager.py:30-56 | starting gives the dispatch outcome; a success sets both `driver` and `wait`; a failure keeps the state |
| BrowserManagement.BrowserManager.CloseBrowser | src/core/browser_manager.py:233-243 | after closing, `driver` is None, `wait` is None when there was a driver, and nothing happens without one |
| BrowserManagement.BrowserManager.Exit | src/core/browser_manager.py:288-290 | leaving the context closes the browser |
| BrowserManagement.BrowserManager.NavigateTo | src/core/browser_manager.py:114-125 | navigation updates the driver as `NavigateResult` says, and keeps it on failure |
| BrowserManagement.BrowserManager.WaitForElement | src/core/browser_manager.py:127-142 | waits for presence as `WaitResult` specifies |
| BrowserManagement.BrowserManager.WaitForClickable | src/core/browser_manager.py:144-159 | waits for clickability as `WaitResult` specifies |
| BrowserManagement.BrowserManager.GetPageSource | src/core/browser_manager.py:188-193 | with no driver, it raises NavigationException; otherwise it returns the page source |
| BrowserManagement.BrowserManager.GetCurrentUrl | src/core/browser_manager.py:195-200 | with no driver, it raises NavigationException; otherwise it returns the current URL |
| BrowserManagement.BrowserManager.GetPageTitle | src/core/browser_manager.py:202-207 | with no driver, it raises NavigationException; otherwise it returns the title |
| BrowserManagement.BrowserManager.GetCookies | src/core/browser_manager.py:245-250 | with no driver, it raises NavigationException; otherwise it returns the cookies |
| BrowserManagement.BrowserManager.IsElementPresent | src/core/browser_manager.py:273-282 | true exactly when there is a driver and the lookup succeeds with at least one match |
| BrowserManagement.BrowserManager.TakeScreenshot | src/core/browser_manager.py:177-186 | fails exactly when there is no driver |
| BrowserManagement.BrowserManager.RefreshPage | src/core/browser_manager.py:209-215 | with no driver, it raises; otherwise it reloads the current URL, or propagates the load error |
| BrowserManagement.BrowserManager.GoBack | src/core/browser_manager.py:217-223 | with no driver, it raises; otherwise it goes back in the history |
| BrowserManagement.BrowserManager.GoForward | src/core/browser_manager.py:225-231 | with no driver, it raises; otherwise it goes forward in the history |
| BrowserManagement.BrowserManager.AddCookie | src/core/browser_manager.py:252-257 | with no driver, it raises; otherwise it appends the cookie |
| BrowserManagement.BrowserManager.ClearCookies | src/core/browser_manager.py:259-264 | with no driver, it raises; otherwise it removes all cookies |
| BrowserManagement.BrowserManager.ExecuteScript | src/core/browser_manager.py:266-271 | with no driver, it raises; otherwise it returns the script's result and its effect on the page |
| BrowserManagement.BrowserManager.ScrollToElement | src/core/browser_manager.py:161-167 | with no driver, it raises; otherwise it runs the scroll-into-view script on the element |
| BrowserManagement.BrowserManager.ScrollToBottom | src/core/browser_manager.py:169-175 | with no driver, it raises; otherwise it runs the scroll-to-bottom script |
| AutoExtractor.DefaultOptions | selenium_auto_extractor.py:11-23 | the option defaults: `#username`, `#password`, the submit button, 10 iterations, `extracted_text.txt`, not headless |
| AutoExtractor.Required | selenium_auto_extractor.py:48-54 | a required lookup succeeds exactly when an element matches, and a miss raises NoSuchElementException |
| AutoExtractor.Login | selenium_auto_extractor.py:46-56 | login is attempted only when both username and password are given, and a missing username field raises |
| AutoExtractor.Label | selenium_auto_extractor.py:77 | the label is `(text or value or '')` stripped and lowercased: the text when non-empty, else the `value` attribute when present, else ''; reading a stale candidate fails |
| AutoExtractor.ClickFirstIsFirst | selenium_auto_extractor.py:74-84 | nothing is clicked exactly when no candidate matches and clicks; otherwise the first such candidate, in document order, is clicked, and failing candidates are skipped |
| AutoExtractor.SubstringIsNotEnough | selenium_auto_extractor.py:77-78 | a "Next page" control does not match the target "next": the label must be equal, not merely contain it |
| AutoExtractor.Step | selenium_auto_extractor.py:63-84 | an iteration records the current page's URL |
| AutoExtractor.StepReadsBody | selenium_auto_extractor.py:63-68 | a page without a body raises, and a recorded entry holds the stripped body text |
| AutoExtractor.Pages | selenium_auto_extractor.py:58-88 | at most `iterations` entries and none when `iterations <= 0`; an executed loop records its start page first |
| AutoExtractor.PagesFail | selenium_auto_extractor.py:60-88 | an iteration that raises ends the loop with its error |
| AutoExtractor.PagesStopAtNoMatch | selenium_auto_extractor.py:85-87 | the iteration that finds no button still contributes its page, and the loop stops |
| AutoExtractor.PagesContinue | selenium_auto_extractor.py:85-88 | after a click the loop continues on the new page with one iteration fewer |
| AutoExtractor.ReportPrefix | selenium_auto_extractor.py:92-97 | the report lists the entries in order, the k-th as section k+1 |
| AutoExtractor.SectionHeading | selenium_auto_extractor.py:94-95 | each section starts with `=== Page i ===` and the URL line |
| AutoExtractor.Automation | selenium_auto_extractor.py:40-97 | a start URL that fails to load ends the run with that error |
| AutoExtractor.ScanControls | selenium_auto_extractor.py:74-84 | the candidate loop computes `ClickFirst` |
| AutoExtractor.Iterate | selenium_auto_extractor.py:62-84 | the loop body computes `Step` |
| AutoExtractor.Traverse | selenium_auto_extractor.py:58-88 | the bounded loop with `break` computes `Pages` |
| AutoExtractor.WriteReport | selenium_auto_extractor.py:90-97 | the write loop produces `Report` |
| AutoExtractor.Run | selenium_auto_extractor.py:40-97 | the whole run computes `Automation` |
| Navigation.Added | advanced_navigation.py:287-290 | after `add_url` the URL is in the list; a present URL leaves the list alone, and a new one is appended |
| Navigation.AddedKeepsDistinct | advanced_navigation.py:287-290 | `add_url` never creates a duplicate |
| Navigation.AddAllShape | advanced_navigation.py:292-301 | adding many URLs keeps the list duplicate-free, keeps the old list as a prefix, and holds exactly the old and the new URLs |
| Navigation.Kept | advanced_navigation.py:298 | a line is kept exactly when it is non-empty and does not start with '#' |
| Navigation.PickedMembers | advanced_navigation.py:296-299 | a URL is taken from a file exactly when some stripped line equals it and it is neither blank nor a comment |
| Navigation.FileUrlsMembers | advanced_navigation.py:296-299 | the same for the file's stripped lines |
| Navigation.NextIndex | advanced_navigation.py:305-310 | the scan never moves the cursor backwards or past the end |
| Navigation.NextIndexIsFirst | advanced_navigation.py:303-311 | the scan stops at the first unvisited URL at or after the cursor, and reaches the end exactly when all are visited |
| Navigation.RemainingNonNegative | advanced_navigation.py:322-333 | remaining is non-negative while every visited URL is on the duplicate-free list |
| Navigation.RemainingCanBeNegative | advanced_navigation.py:313-333 | marking URLs outside the list makes remaining negative |
| Navigation.URLManager.constructor | advanced_navigation.py:282-285 | a new manager is empty with the cursor at 0 |
| Navigation.URLManager.AddUrl | advanced_navigation.py:287-290 | the list becomes `Added`, and the invariants hold |
| Navigation.URLManager.AddUrlsFromFile | advanced_navigation.py:292-301 | a missing file is reported; otherwise the file's kept URLs are added in order |
| Navigation.URLManager.AddLine | advanced_navigation.py:296-299 | one line is stripped, filtered and added |
| Navigation.URLManager.GetNextUrl | advanced_navigation.py:303-311 | returns the first unvisited URL at or after the cursor, marks it visited and leaves the cursor just past it, or returns None with the cursor at the end; the cursor only grows and no URL is handed out twice |
| Navigation.URLManager.MarkUrlVisited | advanced_navigation.py:313-315 | adds the URL to the visited set and changes nothing else |
| Navigation.URLManager.Reset | advanced_navigation.py:317-320 | zeroes the cursor and clears the visited set, keeping the list |
| Navigation.URLManager.GetProgress | advanced_navigation.py:322-333 | total, visited, cursor, and remaining as total minus visited; the cursor is within the list |
| Navigation.PickedFromSnoc | advanced_navigation.py:296-299 | filtering lines one at a time at the end agrees with filtering them all |
| Navigation.AddAllConcat | advanced_navigation.py:296-299 | adding two batches equals adding their concatenation |
| Navigation.NavigationConfig.constructor | advanced_navigation.py:338-345 | the defaults: 3000 ms delay, 100 pages, text extraction on, auto-save off, redirects and robots.txt on, the bot user agent |
| Navigation.NavigationConfig.SetDelay | advanced_navigation.py:347-349 | stores seconds times 1000 and changes nothing else |
| Navigation.NavigationConfig.SetMaxPages | advanced_navigation.py:351-353 | stores the page limit and changes nothing else |
| Navigation.NavigationConfig.EnableTextExtraction | advanced_navigation.py:355-357 | stores the flag and changes nothing else |
| Navigation.NavigationConfig.EnableAutoSave | advanced_navigation.py:359-361 | stores the flag and changes nothing else |
| Navigation.CommonPatterns | advanced_navigation.py:49-68 | the registry holds exactly next_page, pagination and article_list, each under its own name |
| Navigation.PatternNamed | advanced_navigation.py:70-75 | a registered name gives its pattern, and any other name raises ValueError naming it |
| Navigation.OnlyCommonPatterns | advanced_navigation.py:70-75 | only the three common names are accepted |
| Navigation.AdvancedNavigator.constructor | advanced_navigation.py:37-47 | a new navigator has the common patterns, no current pattern, no visited URLs, 100 pages and 3000 ms |
| Navigation.AdvancedNavigator.SetNavigationPattern | advanced_navigation.py:70-75 | a registered name becomes the current pattern, and any other name raises ValueError and keeps the state |
| Navigation.AdvancedNavigator.StartAutoNavigation | advanced_navigation.py:77-84 | the visited set becomes exactly the start URL, the page limit is stored and the start URL is loaded |
| FileUtils.GenerateFilename | src/utils/file_utils.py:34-39 | `prefix_TS.ext` with a timestamp, `prefix.ext` without |
| FileUtils.RFind | src/utils/file_utils.py:199 | the last occurrence of a character, or -1 exactly when there is none |
| FileUtils.Stem | src/utils/file_utils.py:143 | the stem followed by the suffix is the name |
| FileUtils.GeneratedSuffix | src/utils/file_utils.py:34-39 | a generated name's suffix is the extension, so `list_files` finds it by that extension |
| FileUtils.CleanKey | src/utils/file_utils.py:108 | a tag is the key with ' ' and '-' replaced by '_', and no space or dash is left |
| FileUtils.EntryToXml | src/utils/file_utils.py:106-122 | each key yields children tagged by its clean key: one per list element with `index=i`, and a scalar as one text child |
| FileUtils.ItemToXml | src/utils/file_utils.py:113-120 | a list element becomes a child with its index, holding its text unless it is a dict |
| FileUtils.DictToXmlLength | src/utils/file_utils.py:104-122 | the parent receives one child per scalar or dict key and one per list element |
| FileUtils.DictToXmlClean | src/utils/file_utils.py:104-122 | no tag anywhere in the tree contains a space or a dash |
| FileUtils.DictToXmlReadsBack | src/utils/file_utils.py:104-122 | a flat dict of strings with clean keys can be read back from its children unchanged |
| FileUtils.FirstNonDict | src/utils/file_utils.py:85-88 | the index of the first element that is not a dict, or -1 when all are |
| FileUtils.XmlDocument | src/utils/file_utils.py:79-92 | a list gives `item` children with `id=i` in order and fails exactly when an element is not a dict; a dict's children go under the root; anything else becomes the root's text |
| FileUtils.ExtraKeys | src/utils/file_utils.py:68 | exactly the row's keys that are not in the header |
| FileUtils.RowError | src/utils/file_utils.py:68 | `DictWriter` rejects a row exactly when it is not a dict or has keys outside the header |
| FileUtils.CsvBody | src/utils/file_utils.py:65-68 | the rows before the first rejected row are written, and the error is that row's |
| FileUtils.FirstRowFits | src/utils/file_utils.py:63 | the first record always fits the header made of its own keys |
| FileUtils.UniformRowsWritten | src/utils/file_utils.py:63-68 | records with the first record's keys are all written without error |
| FileUtils.AfterBackup | src/utils/file_utils.py:137-159 | backing up copies the file to the backup name, and every other name is unchanged |
| FileUtils.Store | src/utils/file_utils.py:44-46 | writing puts the content under the name and changes no other name |
| FileUtils.Remove | src/utils/file_utils.py:208-210 | removal leaves no entry under the name and changes no other name |
| FileUtils.Sort | src/utils/file_utils.py:201 | sorting is ordered and a permutation |
| FileUtils.MatchingNamesExact | src/utils/file_utils.py:197-200 | a file is listed exactly when it matches the extension, case-insensitively |
| FileUtils.FileHandler.constructor | src/utils/file_utils.py:20-23 | a handler holds the output directory and its listing |
| FileUtils.FileHandler.PathOf | src/utils/file_utils.py:44 | a file's path is the output directory, a slash and the file name |
| FileUtils.FileHandler.SaveJson | src/utils/file_utils.py:41-52 | writes the JSON text under the name and returns its path; a directory in the way raises OutputException and writes nothing |
| FileUtils.FileHandler.SaveText | src/utils/file_utils.py:124-135 | writes the text under the name and returns its path; a directory in the way raises OutputException and writes nothing |
| FileUtils.FileHandler.SaveXml | src/utils/file_utils.py:76-102 | a tree that cannot be built raises OutputException and writes nothing; otherwise it writes the XML document |
| FileUtils.FileHandler.SaveCsv | src/utils/file_utils.py:54-74 | empty data raises "No data to save"; a non-dict first record raises; the header is the first record's keys, and the rows up to a rejected row are written |
| FileUtils.FileHandler.FileExists | src/utils/file_utils.py:180-183 | true exactly when an entry has the name |
| FileUtils.FileHandler.CreateBackup | src/utils/file_utils.py:137-159 | a missing file gives "" and changes nothing; otherwise it returns the backup path |
| FileUtils.FileHandler.ListFiles | src/utils/file_utils.py:193-203 | returns the matching file names, sorted |
| FileUtils.FileHandler.DeleteFile | src/utils/file_utils.py:205-218 | true exactly when a file had the name, which is removed; a missing file gives false and changes nothing |
| FileUtils.CsvRows | src/utils/file_utils.py:245-246 | for CSV, a list is used as is, a dict becomes `[dict]` and anything else `[{"data": data}]` |
| FileUtils.Sample | src/utils/file_utils.py:262-266 | a list longer than 5 is cut to its first 5 elements, and anything else is kept whole |
| FileUtils.Summary | src/utils/file_utils.py:262-266 | the summary has timestamp, statistics and sample_data, holding the stats and the sample |
| FileUtils.DataExporter.constructor | src/utils/file_utils.py:224-226 | an exporter writes through its file handler |
| FileUtils.DataExporter.ExportData | src/utils/file_utils.py:228-257 | the export succeeds exactly when `ExportWritable` holds for the generated name (no directory there, and a known format whose writer accepts the records); every failure is an OutputException prefixed "Failed to export data: "; an unknown format fails; no directory appears or disappears; a success writes the generated file; on success and on failure, no name other than the generated file and its backup changes, and with a backup requested the backup name holds what `create_backup` copied there |
| FileUtils.DataExporter.BackUpFirst | src/utils/file_utils.py:238-239 | with backups on, an existing file is backed up first |
| FileUtils.DataExporter.Save | src/utils/file_utils.py:242-254 | the lower-cased format picks the writer; the write succeeds exactly when `ExportWritable` holds (JSON and text always, CSV for a non-empty list led by a dict whose rows all fit, XML when the document builds, and never onto a directory); an unknown format raises "Unsupported format" |
| FileUtils.DataExporter.ExportSummary | src/utils/file_utils.py:259-271 | writes the summary under a timestamped JSON name and succeeds exactly when no directory has that name; every failure is prefixed "Failed to export summary: " |
| Config.DefaultConfig | src/core/config.py:11-51 | chrome, not headless, 1200x800, waits 10 and 30; delay 1.0, 3 retries, 100 pages; "output", "json", "scraped_data"; "INFO", "scraper.log" |
| Config.TypeOf | src/core/config.py:89 | a key has a field type exactly when the schema names it |
| Config.OverlaySemantics | src/core/config.py:89-91 | an overlay succeeds exactly when every key is a field with a value of that field's type (any number, negative ones included, for a delay), and then each given key reads its value |
| Config.BrowserRoundTrip | src/core/config.py:96-103 | converting a browser section to a dict and back is the identity |
| Config.ScrapingRoundTrip | src/core/config.py:96-103 | converting a scraping section to a dict and back is the identity |
| Config.OutputRoundTrip | src/core/config.py:96-103 | converting an output section to a dict and back is the identity |
| Config.MissingSectionsDefault | src/core/config.py:82-94 | an empty file converts to the default configuration |
| Config.PresentKeyOverrides | src/core/config.py:84-94 | a browser section whose keys all name fields with fitting values converts; each key it gives reads its given value and every other field keeps its dataclass default |
| Config.MissingSectionDefaults | src/core/config.py:84-94 | in any document, a missing browser, scraping or output section and a missing `log_level` or `log_file` take their defaults |
| Config.OverlayComplete | src/core/config.py:89-91 | a section that gives every field reads back exactly as given |
| Config.BrowserSectionReadsBack | src/core/config.py:84-91 | a saved browser section loads back as itself |
| Config.SaveLoadRoundTrip | src/core/config.py:82-103 | loading what `save_config` writes gives the same configuration |
| Config.UnknownKeyFails | src/core/config.py:89 | an unknown key in a section makes the conversion fail |
| Config.LoadFallsBack | src/core/config.py:61-72 | a missing file and any load or conversion error give the whole default configuration, and a successful conversion is used as is |
| Config.UnknownSettingsIgnored | src/core/config.py:109-113 | settings with unknown names change nothing |
| Config.LastLogLevelWins | src/core/config.py:109-113 | the last log-level setting wins |
| Config.ConfigManager.constructor | src/core/config.py:57-59 | a new manager holds the loaded configuration |
| Config.ConfigManager.Reload | src/core/config.py:61-72 | reloading replaces the configuration with what `LoadConfig` gives |
| Config.ConfigManager.UpdateConfig | src/core/config.py:109-113 | the configuration becomes the settings applied in order |
| Config.ConfigManager.SaveConfig | src/core/config.py:96-103 | writes the configuration as its dict, and keeps it |
| Config.ConfigManager.CreateDefaultConfigFile | src/core/config.py:115-119 | replaces the configuration with the defaults and writes them |
| Cli.DefaultArguments | src/ui/cli.py:72-82 | the parser defaults: chrome, json, "output", no filename, not headless, neither verbose nor quiet |
| Cli.BrowserOverrides | src/ui/cli.py:142-146 | `--headless` only switches headless on, and a non-empty `--browser` replaces the type; the other settings stay |
| Cli.OutputOverrides | src/ui/cli.py:148-155 | a non-empty output directory or format replaces its field, and `--filename` replaces the prefix only when given |
| Cli.LevelOverride | src/ui/cli.py:157-161 | quiet beats verbose: both give WARNING, verbose alone gives DEBUG |
| Cli.Overrides | src/ui/cli.py:142-161 | the overrides touch only browser, output and the log level |
| Cli.OverridesIdempotent | src/ui/cli.py:142-161 | applying the same arguments twice equals applying them once |
| Cli.ParserDefaultsAlwaysWin | src/ui/cli.py:74-79 | with default arguments, the browser becomes chrome, the format json and the directory "output", whatever the configuration says, and headless is kept |
| Cli.ConfigFileApplied | src/ui/cli.py:137-140 | with `--config`, every field no option overrides comes from the named file, and otherwise from the current configuration |
| Cli.ConfigFileIgnored | src/ui/cli.py:137-140 | as written, a file that sets headless leaves the CLI's configuration not headless |
| Cli.SavePrefix | src/ui/cli.py:216 | the configured prefix is used when non-empty, and the command's default otherwise |
| Cli.DefaultConfigPrefixWins | src/ui/cli.py:216 | under the default configuration every command saves with "scraped_data" |
| Cli.PageSelectors | src/ui/cli.py:208-211 | a decoded object whose values are all strings gives its selectors in key order, and any other value gives none |
| Cli.Parsed | src/ui/cli.py:343-347 | `scrape-pattern` hands on whatever its JSON decodes to and fails only on invalid JSON; `scrape-page` needs an object of strings (line 208); the other commands parse nothing |
| Cli.NonStringPatternCommand | src/ui/cli.py:343-347 | `scrape-pattern` with `{"email": <regex>, "count": 1}` extracts the regex's matches and skips the number |
| Cli.ScrapeOf | src/ui/cli.py:200-366 | a failing scrape adds one error and keeps the data; a success appends its records; a missing browser raises |
| Cli.ConfigView | src/ui/cli.py:396-420 | the shown configuration has browser, scraping, output, log_level and log_file |
| Cli.ConfigViewShowsExactly | src/ui/cli.py:396-420 | two configurations show the same exactly when they agree on the shown fields |
| Cli.ConfigOutcome | src/ui/cli.py:394-428 | `--show` shows the configuration, `--create-default` alone creates the default file |
| Cli.CLI.constructor | src/ui/cli.py:46-51 | a new CLI shares the manager's configuration and has no browser or scraper |
| Cli.CLI.ApplyOverrides | src/ui/cli.py:142-161 | the configuration becomes `Overrides` of the arguments |
| Cli.CLI.ApplyArgs | src/ui/cli.py:135-165 | as written: `--config` reloads only the manager's configuration, while the CLI's gets the overrides of its old value |
| Cli.CLI.ApplyArgsIntended | src/ui/cli.py:135-165 | corrected: the CLI's configuration is the overrides of the reloaded file when `--config` is given |
| Cli.CLI.SetupScraper | src/ui/cli.py:167-190 | a browser manager is created from the browser settings; a failing start raises "Failed to setup scraper: ..." |
| Cli.CLI.Cleanup | src/ui/cli.py:192-198 | cleanup closes the browser when there is one |
| Cli.CLI.RunScrape | src/ui/cli.py:200-366 | with no scraper, or invalid JSON, or any error, the result is None; with records scraped, the result is Some exactly when `SaveWritable` holds for the chosen format and prefix; a success appends its records to the session |
| Cli.CLI.RunConfig | src/ui/cli.py:392-431 | shows the configuration, or creates the default file and changes only the manager |
| Cli.CLI.Run | src/ui/cli.py:433-483 | with the corrected `apply_args` (Cli.CLI.ApplyArgsIntended): with no command only help is shown; `config` returns before the scraper is set up; scrape commands use the effective configuration, and cleanup runs on every path |
| Cli.CLI.SetUpAndScrape | src/ui/cli.py:466-483 | a failing setup exits with status 1 and the setup message, after cleanup |
| Cli.CLI.ScrapeAndCleanUp | src/ui/cli.py:469-483 | the browser is closed after the scrape whatever its outcome |
| WebExplorer.NormalizeUrl | web_explorer.py:184-188 | the input is stripped, and "https://" is prepended unless it starts with http:// or https:// |
| WebExplorer.NormalizedHasScheme | web_explorer.py:184-188 | the result always has a scheme |
| WebExplorer.NormalizeIdempotent | web_explorer.py:184-188 | normalising twice equals normalising once |
| WebExplorer.Shown | web_explorer.py:339 | a text over 500 characters is shown as its first 500 and "...", and a shorter one whole |
| WebExplorer.DisplayPrefix | web_explorer.py:330-342 | the display numbers pages from 1 in list order |
| WebExplorer.DisplayAppend | web_explorer.py:330-342 | appending an entry appends its numbered section |
| WebExplorer.BuildMeaning | web_explorer.py:17-31 | running `__init__`'s attribute steps succeeds exactly when every attribute is bound before it is read, and then every bound attribute is set; otherwise it stops at the first read of an unbound attribute |
| WebExplorer.NavigationFails | web_explorer.py:49-57 | as written, the navigation group stops at the Back button's read of `self.web_view` |
| WebExplorer.ConstructionFails | web_explorer.py:57 | as written, `WebExplorer()` raises AttributeError for `web_view`, because line 57 reads the web view before line 155 creates it |
| WebExplorer.WebViewMissingMessage | web_explorer.py:57 | the error says "'WebExplorer' object has no attribute 'web_view'" |
| WebExplorer.CorrectedNavigation | web_explorer.py:45-68 | with the web view created first, the fields and the navigation group build and bind their widgets and the web view |
| WebExplorer.CorrectedLoginAndExtract | web_explorer.py:70-105 | the login and extraction groups then build and bind their widgets |
| WebExplorer.CorrectedPanels | web_explorer.py:107-140 | the automation and status groups then build and bind their widgets |
| WebExplorer.CorrectedDisplay | web_explorer.py:155-182 | the text display and `setup_web_engine` then build, needing only the web view |
| WebExplorer.ConstructionCorrected | web_explorer.py:17-31 | with the web view created first, `__init__` runs to the end and binds every attribute the window reads |
| WebExplorer.Explorer.constructor | web_explorer.py:17-31 | the window after the corrected construction: an empty log and display, the status label "Ready" that `setup_ui` sets at web_explorer.py:135, and the start page loaded |
| WebExplorer.Explorer.NavigateToUrl | web_explorer.py:184-188 | loads the normalised URL and changes nothing else |
| WebExplorer.Explorer.UpdateDisplay | web_explorer.py:330-342 | redraws the display from the log and changes nothing else |
| WebExplorer.Explorer.OnTextExtracted | web_explorer.py:324-328 | a result is appended at the end, with the status naming its title, and an empty result changes nothing |
| WebExplorer.Explorer.SkipCurrentPage | web_explorer.py:392-398 | removes only the last entry when one exists, and otherwise reports there is none |
| WebExplorer.Explorer.ClearExtractedText | web_explorer.py:375-378 | empties the log and the display |

## Left out

- Selenium, QtWebEngine and the regex engine are abstract ports, and CSS/XPath evaluation, regex matching and URL resolution are not modelled. The ports are `Port.Page.query`, `Libraries.findall`, `Libraries.urljoin` and `Libraries.netloc`.
- `time.sleep`, `time.time` and `datetime.now` are parameters or recorded delays. Durations and delays are real numbers, not floating point.
- The rendering of float `str()` is approximate: an integral value prints with ".0", and others print a fixed decimal form.
- There is no Unicode handling. `strip()` knows only the Latin-1 whitespace, and `lower()` folds only ASCII.
- `repr` escaping of quotes inside strings is not modelled.
- Logging (src/utils/logger.py) and every `print` are not modelled.
- The auto-extractor's Chrome option setup (selenium_auto_extractor.py:30-38) is left out. It takes no decision the traversal depends on.
- The auto-extractor's sleeps and its `driver.quit()` are left out.
- The output file write, `driver.quit()` and the screenshot's file are effects outside the model.
- Only the write failure of a directory in the way is modelled. Other OS errors and the `mkdir` of `_ensure_output_dir` are not.
- A backup copies the file only. The contents of subdirectories and path normalisation are not modelled.
- `load_json`, `load_csv` and `get_file_size` are not modelled, because no core operation uses them.
- The XML tree is built as an immutable value, not in place with `SubElement`.
- The order of the keys in the `DictWriter` error message is taken as the row's order. Python builds it from a set difference.
- Config.Overlay: stores any number for a delay, as the dataclass does, and leaves a negative one for `time.sleep` to reject. It rejects a JSON value of the wrong type for its field, which makes the load fall back to the defaults. The Python dataclass would store such a value unchecked. The same holds for a non-string top-level `log_level` or `log_file`.
- Config.SetAttr: ignores a value whose type does not fit the named setting. Python's `setattr` would store it unchecked.
- Config.SaveLoadRoundTrip: `window_size` is a pair of integers in the model. Python's `json` writes the tuple as a list, so the reloaded configuration holds a list where the saved one held a tuple; the model does not distinguish the two.
- Cli.CLI.Run: uses the corrected Cli.CLI.ApplyArgsIntended (see "## Findings"). With `--config`, the source's `run` calls the as-written `apply_args` and keeps the old configuration, which only Cli.CLI.ApplyArgs and Cli.ConfigFileIgnored model.
- Cli.Parsed: for `scrape-page`, JSON that is valid but not an object of strings counts as not parsed, so `run_scrape_page` returns None. In the source the decoded value reaches `scrape_page`, which raises and counts one more error. `scrape-pattern` hands on any decoded value, as the source does.
- WebExplorer.Explorer.constructor: models the window after the corrected construction, with the web view created first (see "## Findings"). As written, `WebExplorer()` raises AttributeError at web_explorer.py:57; only WebExplorer.ConstructionFails models that.
- The construction model tracks only which attributes of the window `__init__` binds and reads. Widget properties, layouts, window titles and reads of the class's own methods are not modelled.
- BrowserManagement.BrowserManager.AddCookie: appends the cookie to the jar. Selenium replaces a cookie that has the same name.
- A JSON file that decodes to something other than an object is treated as a conversion error.
- `save_config`'s warning on a failed write is not modelled.
- `get_config`, `get_scraped_data` and `__enter__` only return their object and have no model.
- Configuration aliasing is not shared. The CLI's overrides are not propagated to the manager, which holds the same object in Python, and `create-default` does not change the CLI's own configuration.
- `run_gui` and the GUIs are not modelled.
- `KeyboardInterrupt` is not modelled.
- argparse's `choices` validation is not modelled.
- `run` ignores the values the `run_scrape_*` methods return, and so does the model.
- The URL file's read errors other than a missing file are not modelled.
- Element staleness is a flag on a snapshot. The model does not track an element going stale during a call.
- The JavaScript text cleaning and the login-script builder of web_explorer.py are not modelled.
- These web-explorer operations are widget wiring and not modelled: `save_extracted_text`, `toggle_auto_mode`, `go_to_next_page`.
- `AdvancedNavigator`'s `_has_*` and `_click_*` placeholders have no behaviour to model.
- `NavigationPattern.add_condition` and `add_action` only store callbacks, and are not modelled.
- The BrowserManager's sleeps and the driver's internals are abstract.

## Findings

| source | as written | input that shows it | evidently intended | confidence | as-written member | corrected member |
|---|---|---|---|---|---|---|
| src/ui/cli.py:137-140 | `--config` rebinds only `config_manager.config` to the loaded file. `self.config` still points at the old configuration, so the overrides and the scraper use the old one. | `--config custom.json` where the file sets `browser.headless` to true: the browser still starts with headless off | the named file's configuration is used, with the options applied on top | not executed | Cli.CLI.ApplyArgs, Cli.ConfigFileIgnored | Cli.CLI.ApplyArgsIntended, Cli.ConfigFileApplied |
| web_explorer.py:57 | `setup_ui` connects the Back button to `self.web_view.back` at line 57, but creates `self.web_view` only at line 155, so the lookup raises AttributeError and the window is never built | any `WebExplorer()` | the web view is created before the buttons are connected to it | not executed | WebExplorer.ConstructionFails | WebExplorer.ConstructionCorrected, WebExplorer.Explorer.constructor |
