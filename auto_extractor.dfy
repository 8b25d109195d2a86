/**
 * The stand-alone Selenium extractor: open a start page, optionally log in,
 * then repeatedly record the page's visible text and click the first
 * control whose label equals a target text, stopping at the first page
 * without one; finally write every recorded page to one text report.
 * The browser is the abstract `Web` of the Port module.
 */
module AutoExtractor {
  import opened Exceptions
  import opened Port
  import opened Text

  /** The command-line options of the extractor, with their defaults. */
  datatype Options = Options(
    url: string,
    username: Option<string>,
    password: Option<string>,
    usernameSelector: string,
    passwordSelector: string,
    loginButtonSelector: string,
    buttonText: string,
    iterations: int,
    output: string,
    headless: bool)

  function DefaultOptions(url: string, buttonText: string): (o: Options)
    ensures o.url == url && o.buttonText == buttonText
    ensures o.username.None? && o.password.None?
    ensures o.usernameSelector == "#username" && o.passwordSelector == "#password"
    ensures o.loginButtonSelector == "button[type=\"submit\"]"
    ensures o.iterations == 10 && o.output == "extracted_text.txt" && !o.headless
  {
    Options(url, None, None, "#username", "#password", "button[type=\"submit\"]",
            buttonText, 10, "extracted_text.txt", false)
  }

  /** One recorded page: `{'url': driver.current_url, 'text': body text}`. */
  datatype PageText = PageText(url: string, text: string)

  /** The controls the extractor considers, in document order. */
  const ControlsPath := "//*[self::button or self::a or self::input[@type='button'] or self::input[@type='submit']]"

  /** A command-line value Python treats as true: given and non-empty. */
  predicate Given(s: Option<string>) {
    s.Some? && s.value != ""
  }

  /** `driver.find_element(...)` whose NoSuchElementException escapes. */
  function Required(p: Page, loc: Locator): (r: Result<Element>)
    ensures r.Ok? <==> FindElement(p, Document, loc).Ok? && FindElement(p, Document, loc).value.Some?
    ensures FindElement(p, Document, loc) == Ok(None) ==> r == Err(NoSuchElementError(loc))
    ensures r.Ok? ==> r.value == FindElements(p, Document, loc).value[0]
  {
    match FindElement(p, Document, loc)
    case Err(e) => Err(e)
    case Ok(None) => Err(NoSuchElementError(loc))
    case Ok(Some(el)) => Ok(el)
  }

  /** The login step: fill the two fields, then click the login button of
      the page the filling produced. Skipped unless both credentials are
      given. */
  function Login(web: Web, page: Page, o: Options): (r: Result<Page>)
    ensures !(Given(o.username) && Given(o.password)) ==> r == Ok(page)
    ensures Given(o.username) && Given(o.password) && FindElement(page, Document, Css(o.usernameSelector)) == Ok(None)
      ==> r == Err(NoSuchElementError(Css(o.usernameSelector)))
  {
    if !(Given(o.username) && Given(o.password)) then Ok(page)
    else
      match Required(page, Css(o.usernameSelector))
      case Err(e) => Err(e)
      case Ok(userField) =>
        match Required(page, Css(o.passwordSelector))
        case Err(e) => Err(e)
        case Ok(passwordField) =>
          match web.fill(page, userField, o.username.value)
          case Err(e) => Err(e)
          case Ok(filled) =>
            match web.fill(filled, passwordField, o.password.value)
            case Err(e) => Err(e)
            case Ok(ready) =>
              match Required(ready, Css(o.loginButtonSelector))
              case Err(e) => Err(e)
              case Ok(button) => web.click(ready, button)
  }

  /** `(el.text or el.get_attribute('value') or '').strip().lower()`;
      None when reading the element raises. */
  function Label(e: Element): (r: Option<string>)
    ensures r.None? <==> e.stale
    ensures !e.stale && e.text != "" ==> r == Some(Lower(Strip(e.text)))
    ensures !e.stale && e.text == "" && "value" in e.attributes ==> r == Some(Lower(Strip(e.attributes["value"])))
    ensures !e.stale && e.text == "" && "value" !in e.attributes ==> r == Some("")
  {
    if e.stale then None
    else if e.text != "" then Some(Lower(Strip(e.text)))
    else if "value" in e.attributes then Some(Lower(Strip(e.attributes["value"])))
    else Some("")
  }

  /** The label every candidate is compared with. */
  function Target(buttonText: string): string {
    Lower(Strip(buttonText))
  }

  /** The candidate at `i` would be clicked: its label is the target and
      the click goes through. */
  predicate Clicks(web: Web, page: Page, els: seq<Element>, target: string, i: int)
    requires 0 <= i < |els|
  {
    Label(els[i]) == Some(target) && web.click(page, els[i]).Ok?
  }

  /** The inner scan: the page after clicking the first candidate that
      matches and whose click succeeds, or None when there is none. */
  function ClickFirst(web: Web, page: Page, els: seq<Element>, target: string): (r: Option<Page>)
    decreases |els|
  {
    if els == [] then None
    else if Clicks(web, page, els, target, 0) then Some(web.click(page, els[0]).value)
    else ClickFirst(web, page, els[1..], target)
  }

  /** The scan clicks exactly the first clickable match: every candidate
      before it was skipped, and there is none when the scan finds none. */
  lemma {:induction false} ClickFirstIsFirst(web: Web, page: Page, els: seq<Element>, target: string)
    ensures ClickFirst(web, page, els, target).None? <==>
      forall i :: 0 <= i < |els| ==> !Clicks(web, page, els, target, i)
    ensures ClickFirst(web, page, els, target).Some? ==>
      exists i :: 0 <= i < |els| && Clicks(web, page, els, target, i) &&
        ClickFirst(web, page, els, target).value == web.click(page, els[i]).value &&
        forall j :: 0 <= j < i ==> !Clicks(web, page, els, target, j)
    decreases |els|
  {
    if els != [] && !Clicks(web, page, els, target, 0) {
      var rest := els[1..];
      ClickFirstIsFirst(web, page, rest, target);
      forall i | 0 <= i < |rest|
        ensures Clicks(web, page, rest, target, i) == Clicks(web, page, els, target, i + 1)
      {
        assert rest[i] == els[i + 1];
      }
      if ClickFirst(web, page, rest, target).Some? {
        var i :| 0 <= i < |rest| && Clicks(web, page, rest, target, i) &&
          ClickFirst(web, page, rest, target).value == web.click(page, rest[i]).value &&
          forall j :: 0 <= j < i ==> !Clicks(web, page, rest, target, j);
        assert Clicks(web, page, els, target, i + 1);
        forall j | 0 <= j < i + 1 ensures !Clicks(web, page, els, target, j) {
          if j > 0 { assert !Clicks(web, page, rest, target, j - 1); }
        }
      } else {
        forall i | 0 <= i < |els| ensures !Clicks(web, page, els, target, i) {
          if i > 0 { assert !Clicks(web, page, rest, target, i - 1); }
        }
      }
    }
  }

  /** A label that merely contains the target does not match: a "Next
      page" control is not clicked for the target "next". */
  lemma SubstringIsNotEnough(web: Web, page: Page, e: Element)
    requires !e.stale && e.text == "Next page"
    ensures ClickFirst(web, page, [e], Target("next")) == None
  {
    NextPageLabel(e);
    NextTarget();
    assert !Clicks(web, page, [e], Target("next"), 0);
    assert [e][1..] == [];
  }

  lemma NextPageLabel(e: Element)
    requires !e.stale && e.text == "Next page"
    ensures Label(e).Some? && |Label(e).value| == 9
  {
    var t := e.text;
    StripUnpadded(t);
    LowerFacts(t);
  }

  lemma NextTarget()
    ensures |Target("next")| == 4
  {
    StripUnpadded("next");
    LowerFacts("next");
  }

  /** One iteration: the page's record, and the next page when a control
      was clicked. A missing body, a stale body or a failing control lookup
      raises. */
  function Step(web: Web, page: Page, target: string): (r: Result<(PageText, Option<Page>)>)
    ensures r.Ok? ==> r.value.0.url == page.url
  {
    match Required(page, TagName("body"))
    case Err(e) => Err(e)
    case Ok(body) =>
      match ReadText(body)
      case Err(e) => Err(e)
      case Ok(text) =>
        match FindElements(page, Document, XPath(ControlsPath))
        case Err(e) => Err(e)
        case Ok(els) => Ok((PageText(page.url, Strip(text)), ClickFirst(web, page, els, target)))
  }

  /** A page without a body raises; otherwise the record holds the first
      body element's stripped text. */
  lemma StepReadsBody(web: Web, page: Page, target: string)
    ensures FindElement(page, Document, TagName("body")) == Ok(None) ==>
      Step(web, page, target) == Err(NoSuchElementError(TagName("body")))
    ensures Step(web, page, target).Ok? ==>
      FindElements(page, Document, TagName("body")).Ok? && FindElements(page, Document, TagName("body")).value != []
    ensures Step(web, page, target).Ok? ==>
      Step(web, page, target).value.0.text == Strip(FindElements(page, Document, TagName("body")).value[0].text)
  {
  }

  /** The pages the loop records when `left` iterations remain. It runs
      at most `left` times and not at all when that is not positive; an
      iteration that ends without error records one page, the current one
      first. */
  function Pages(web: Web, page: Page, target: string, left: int): (r: Result<seq<PageText>>)
    ensures left <= 0 ==> r == Ok([])
    ensures r.Ok? ==> |r.value| <= if left < 0 then 0 else left
    ensures left > 0 && r.Ok? ==> |r.value| >= 1 && r.value[0].url == page.url
    decreases left
  {
    if left <= 0 then Ok([])
    else
      match Step(web, page, target)
      case Err(e) => Err(e)
      case Ok((entry, next)) =>
        if next.None? then Ok([entry])
        else
          match Pages(web, next.value, target, left - 1)
          case Err(e) => Err(e)
          case Ok(rest) => Ok([entry] + rest)
  }

  /** `acc` followed by what `r` records; an error wins. */
  function After(acc: seq<PageText>, r: Result<seq<PageText>>): Result<seq<PageText>> {
    match r
    case Err(e) => Err(e)
    case Ok(rest) => Ok(acc + rest)
  }

  /** An iteration that raises ends the whole loop with its error. */
  lemma PagesFail(web: Web, page: Page, target: string, left: int)
    requires left > 0 && Step(web, page, target).Err?
    ensures Pages(web, page, target, left) == Err(Step(web, page, target).error)
  {
  }

  /** The loop stops at the first page where nothing is clicked, and that
      page is still recorded. */
  lemma PagesStopAtNoMatch(web: Web, page: Page, target: string, left: int)
    requires left > 0 && Step(web, page, target).Ok? && Step(web, page, target).value.1.None?
    ensures Pages(web, page, target, left) == Ok([Step(web, page, target).value.0])
  {
  }

  /** When a control was clicked, the loop records this page and goes on
      from the page the click produced. */
  lemma PagesContinue(web: Web, page: Page, target: string, left: int)
    requires left > 0 && Step(web, page, target).Ok? && Step(web, page, target).value.1.Some?
    ensures Pages(web, page, target, left) ==
      After([Step(web, page, target).value.0], Pages(web, Step(web, page, target).value.1.value, target, left - 1))
  {
  }

  /** The report section of the `i`-th page (counting from 1). */
  function Section(i: nat, e: PageText): string {
    "=== Page " + NatToString(i) + " ===\n" + "URL: " + e.url + "\n" + Repeat('-', 50) + "\n" + e.text + "\n\n"
  }

  /** The output file: one section per page, numbered from 1 in the order
      the pages were recorded. */
  function Report(entries: seq<PageText>): string
    decreases |entries|
  {
    if entries == [] then ""
    else Report(entries[..|entries| - 1]) + Section(|entries|, entries[|entries| - 1])
  }

  /** The report of the first k pages is where the report of all pages
      starts, and page k+1's section follows it. */
  lemma {:induction false} ReportPrefix(entries: seq<PageText>, k: nat)
    requires k < |entries|
    ensures StartsWith(Report(entries), Report(entries[..k]) + Section(k + 1, entries[k]))
    decreases |entries|
  {
    var n := |entries| - 1;
    var init := entries[..n];
    var head := Report(entries[..k]) + Section(k + 1, entries[k]);
    assert Report(entries) == Report(init) + Section(n + 1, entries[n]);
    if k < n {
      ReportPrefix(init, k);
      assert init[..k] == entries[..k];
      assert init[k] == entries[k];
      StartsWithExtend(Report(init), head, Section(n + 1, entries[n]));
    } else {
      assert init == entries[..k];
      assert Report(entries)[..|head|] == head;
    }
  }

  /** The section of page i begins with its numbered banner and URL line. */
  lemma SectionHeading(i: nat, e: PageText)
    ensures StartsWith(Section(i, e), "=== Page " + NatToString(i) + " ===\nURL: " + e.url + "\n")
  {
    var h := "=== Page " + NatToString(i) + " ===\nURL: " + e.url + "\n";
    assert Section(i, e) == h + (Repeat('-', 50) + "\n" + e.text + "\n\n");
    assert Section(i, e)[..|h|] == h;
  }

  /** What a whole run writes to the output file, or the error that ends it
      before anything is written. */
  function Automation(web: Web, o: Options): (r: Result<string>)
    ensures web.open(o.url).Err? ==> r == Err(web.open(o.url).error)
  {
    match web.open(o.url)
    case Err(e) => Err(e)
    case Ok(start) =>
      match Login(web, start, o)
      case Err(e) => Err(e)
      case Ok(page) =>
        match Pages(web, page, Target(o.buttonText), o.iterations)
        case Err(e) => Err(e)
        case Ok(entries) => Ok(Report(entries))
  }

  /** Scanning from candidate k: click it, or go on with the rest. */
  lemma ClickFirstFrom(web: Web, page: Page, els: seq<Element>, target: string, k: nat)
    requires k < |els|
    ensures ClickFirst(web, page, els[k..], target) ==
      if Clicks(web, page, els, target, k) then Some(web.click(page, els[k]).value)
      else ClickFirst(web, page, els[k + 1..], target)
  {
    var rest := els[k..];
    assert rest[0] == els[k] && rest[1..] == els[k + 1..];
    assert Clicks(web, page, rest, target, 0) == Clicks(web, page, els, target, k);
  }

  /** The scan over the candidates, with its `found` flag and `break`. */
  method ScanControls(web: Web, page: Page, els: seq<Element>, target: string) returns (next: Option<Page>)
    ensures next == ClickFirst(web, page, els, target)
  {
    next := None;
    var k := 0;
    var found := false;
    assert els[0..] == els;
    while k < |els| && !found
      invariant 0 <= k <= |els|
      invariant found ==> next == ClickFirst(web, page, els, target)
      invariant !found ==> next == None && ClickFirst(web, page, els, target) == ClickFirst(web, page, els[k..], target)
      decreases |els| - k, if found then 0 else 1
    {
      ClickFirstFrom(web, page, els, target, k);
      var shown := Label(els[k]);
      if shown == Some(target) {
        var clicked := web.click(page, els[k]);
        if clicked.Ok? {
          next := Some(clicked.value);
          found := true;
        }
      }
      k := k + 1;
    }
    if !found {
      assert els[k..] == [];
    }
  }

  /** One pass of the loop body: record the page, then scan the controls. */
  method Iterate(web: Web, page: Page, target: string) returns (r: Result<(PageText, Option<Page>)>)
    ensures r == Step(web, page, target)
  {
    var body := Required(page, TagName("body"));
    if body.Err? {
      return Err(body.error);
    }
    var text := ReadText(body.value);
    if text.Err? {
      return Err(text.error);
    }
    var entry := PageText(page.url, Strip(text.value));
    var els := FindElements(page, Document, XPath(ControlsPath));
    if els.Err? {
      return Err(els.error);
    }
    var next := ScanControls(web, page, els.value, target);
    r := Ok((entry, next));
  }

  /** The `for i in range(iterations)` loop. */
  method Traverse(web: Web, start: Page, target: string, iterations: int) returns (r: Result<seq<PageText>>)
    ensures r == Pages(web, start, target, iterations)
  {
    var texts: seq<PageText> := [];
    var page := start;
    var i := 0;
    AfterNothing(Pages(web, start, target, iterations));
    while i < iterations
      invariant iterations <= 0 || 0 <= i <= iterations
      invariant After(texts, Pages(web, page, target, iterations - i)) == Pages(web, start, target, iterations)
      decreases iterations - i
    {
      ghost var left := iterations - i;
      var step := Iterate(web, page, target);
      if step.Err? {
        PagesFail(web, page, target, left);
        return Err(step.error);
      }
      var (entry, next) := step.value;
      if next.None? {
        PagesStopAtNoMatch(web, page, target, left);
        return Ok(texts + [entry]);
      }
      PagesContinue(web, page, target, left);
      AfterAfter(texts, [entry], Pages(web, next.value, target, left - 1));
      texts := texts + [entry];
      page := next.value;
      i := i + 1;
    }
    assert texts + [] == texts;
    r := Ok(texts);
  }

  lemma AfterNothing(r: Result<seq<PageText>>)
    ensures After([], r) == r
  {
    if r.Ok? {
      assert [] + r.value == r.value;
    }
  }

  lemma AfterAfter(a: seq<PageText>, b: seq<PageText>, r: Result<seq<PageText>>)
    ensures After(a, After(b, r)) == After(a + b, r)
  {
    if r.Ok? {
      assert a + (b + r.value) == a + b + r.value;
    }
  }

  /** The report of the first i + 1 pages is that of the first i and page
      i + 1's section. */
  lemma ReportSnoc(entries: seq<PageText>, i: nat)
    requires i < |entries|
    ensures Report(entries[..i + 1]) == Report(entries[..i]) + Section(i + 1, entries[i])
  {
    assert entries[..i + 1][..i] == entries[..i];
  }

  /** Writing the report, one section per recorded page. */
  method WriteReport(entries: seq<PageText>) returns (s: string)
    ensures s == Report(entries)
  {
    s := "";
    var i := 0;
    while i < |entries|
      invariant 0 <= i <= |entries|
      invariant s == Report(entries[..i])
    {
      ReportSnoc(entries, i);
      s := s + Section(i + 1, entries[i]);
      i := i + 1;
    }
    assert entries[..i] == entries;
  }

  /** The body of `main`: open the start page, log in, traverse, and
      produce the report that is written to the output file. */
  method Run(web: Web, o: Options) returns (r: Result<string>)
    ensures r == Automation(web, o)
  {
    var start := web.open(o.url);
    if start.Err? {
      return Err(start.error);
    }
    var page := Login(web, start.value, o);
    if page.Err? {
      return Err(page.error);
    }
    var entries := Traverse(web, page.value, Target(o.buttonText), o.iterations);
    if entries.Err? {
      return Err(entries.error);
    }
    var report := WriteReport(entries.value);
    r := Ok(report);
  }
}
