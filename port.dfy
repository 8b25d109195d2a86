/**
 * The browser as the core sees it. A page is a value: its URL, title and
 * source, plus a lookup function that stands for the browser's CSS, XPath
 * and tag-name engines. An element is a snapshot of the DOM node behind a
 * Selenium WebElement handle. Reading a handle whose node has left the
 * document raises, which the `stale` flag models.
 */
module Port {
  import opened Exceptions
  import opened Records

  datatype Locator =
    | Css(selector: string)       // By.CSS_SELECTOR
    | XPath(path: string)         // By.XPATH
    | TagName(name: string)       // By.TAG_NAME

  datatype Element = Element(
    id: nat,
    tag: string,
    text: string,
    attributes: map<string, string>,
    innerHtml: string,
    stale: bool)

  /** Where a lookup starts: the whole document, or inside one element. */
  datatype Scope = Document | Within(container: Element)

  /** What the browser's engine answers: the matches in document order, or
      an error (an invalid selector, say). */
  datatype Lookup = Matches(found: seq<Element>) | EngineError(message: string)

  datatype Page = Page(
    url: string,
    title: string,
    source: string,
    query: (Scope, Locator) -> Lookup)

  const StaleMessage := "stale element reference: element is not attached to the page document"

  function Stale(): Error {
    Error(DriverError, StaleMessage)
  }

  /** `element.text`. */
  function ReadText(e: Element): (r: Result<string>)
    ensures r.Err? <==> e.stale
    ensures r.Ok? ==> r.value == e.text
  {
    if e.stale then Err(Stale()) else Ok(e.text)
  }

  /** `element.get_attribute(name)`: None when the attribute is absent. */
  function ReadAttribute(e: Element, name: string): (r: Result<Option<string>>)
    ensures r.Err? <==> e.stale
    ensures r.Ok? ==> (r.value.Some? <==> name in e.attributes)
    ensures r.Ok? && r.value.Some? ==> r.value.value == e.attributes[name]
  {
    if e.stale then Err(Stale())
    else if name in e.attributes then Ok(Some(e.attributes[name]))
    else Ok(None)
  }

  /** The attribute's value when present and non-empty, as
      `element.get_attribute(name) or ...` tests it. */
  function TruthyAttribute(e: Element, name: string): (r: Option<string>)
    ensures r.Some? <==> name in e.attributes && e.attributes[name] != ""
  {
    if name in e.attributes && e.attributes[name] != "" then Some(e.attributes[name]) else None
  }

  /** `get_attribute(name) or default`, for a readable element. */
  function AttributeOr(e: Element, name: string, default: string): (s: string)
    ensures name in e.attributes && e.attributes[name] != "" ==> s == e.attributes[name]
    ensures !(name in e.attributes && e.attributes[name] != "") ==> s == default
  {
    match TruthyAttribute(e, name) case Some(v) => v case None => default
  }

  /** `scope.find_elements(by, value)`: looking inside a stale element raises. */
  function FindElements(p: Page, scope: Scope, loc: Locator): (r: Result<seq<Element>>)
    ensures scope.Within? && scope.container.stale ==> r == Err(Stale())
    ensures !(scope.Within? && scope.container.stale) ==>
      (r.Ok? <==> p.query(scope, loc).Matches?) &&
      (r.Ok? ==> r.value == p.query(scope, loc).found)
  {
    if scope.Within? && scope.container.stale then Err(Stale())
    else match p.query(scope, loc)
      case Matches(found) => Ok(found)
      case EngineError(m) => Err(Error(DriverError, m))
  }

  /** `scope.find_element(by, value)`: the first match. `Ok(None)` stands
      for NoSuchElementException, which callers catch separately from every
      other error. */
  function FindElement(p: Page, scope: Scope, loc: Locator): (r: Result<Option<Element>>)
    ensures r.Err? <==> FindElements(p, scope, loc).Err?
    ensures r.Ok? ==> (r.value.None? <==> FindElements(p, scope, loc).value == [])
    ensures r.Ok? && r.value.Some? ==> r.value.value == FindElements(p, scope, loc).value[0]
  {
    match FindElements(p, scope, loc)
    case Err(e) => Err(e)
    case Ok(found) => if found == [] then Ok(None) else Ok(Some(found[0]))
  }

  /** The NoSuchElementException a `find_element` without a match raises,
      when the caller lets it escape. */
  function NoSuchElementError(loc: Locator): Error {
    Error(NoSuchElement, "no such element: Unable to locate element: " + LocatorText(loc))
  }

  function LocatorText(loc: Locator): string {
    match loc
    case Css(s) => s
    case XPath(s) => s
    case TagName(s) => s
  }

  /** `EC.presence_of_element_located` and `EC.element_to_be_clickable`. */
  datatype WaitCondition = Present | Clickable

  /** An argument passed to a script: an element handle or a JSON value. */
  datatype ScriptArg = ElementArg(element: Element) | ValueArg(value: Value)

  /** The parts of the browser that act: opening a URL, clicking an element,
      clearing a field and typing into it, running a script (which may change
      the page and returns a value), and polling for a condition until a
      timeout in seconds (None when it timed out). */
  datatype Web = Web(
    open: string -> Result<Page>,
    click: (Page, Element) -> Result<Page>,
    fill: (Page, Element, string) -> Result<Page>,
    script: (Page, string, seq<ScriptArg>) -> Result<(Page, Value)>,
    waitFor: (Page, WaitCondition, Locator, int) -> Option<Element>)
}
