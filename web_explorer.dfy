/**
 * The text log of the Qt web explorer: the address bar's scheme fix, the
 * order in which `__init__` binds and reads the window's attributes, and
 * the list of pages whose text was extracted, which the window appends to,
 * drops the last entry of, clears, and shows as numbered sections.
 */
module WebExplorer {
  import opened Exceptions
  import opened Text

  /** `navigate_to_url`'s address: stripped, and given "https://" unless it
      already names http or https. */
  function NormalizeUrl(input: string): (url: string)
    ensures StartsWith(Strip(input), "http://") || StartsWith(Strip(input), "https://") ==> url == Strip(input)
    ensures !(StartsWith(Strip(input), "http://") || StartsWith(Strip(input), "https://")) ==> url == "https://" + Strip(input)
  {
    var url := Strip(input);
    if StartsWith(url, "http://") || StartsWith(url, "https://") then url else "https://" + url
  }

  predicate HasScheme(url: string) {
    StartsWith(url, "http://") || StartsWith(url, "https://")
  }

  /** The address always carries a scheme. */
  lemma NormalizedHasScheme(input: string)
    ensures HasScheme(NormalizeUrl(input))
  {
    var s := Strip(input);
    if !HasScheme(s) {
      assert ("https://" + s)[..8] == "https://";
    }
  }

  /** Fixing an address twice is fixing it once. */
  lemma NormalizeIdempotent(input: string)
    ensures NormalizeUrl(NormalizeUrl(input)) == NormalizeUrl(input)
  {
    var s := Strip(input);
    StripIdempotent(input);
    var url := NormalizeUrl(input);
    NormalizedHasScheme(input);
    if !HasScheme(s) {
      assert url == "https://" + s;
      assert url[0] == 'h';
      StripIsTrimmedSlice(input);
      if s != [] {
        assert url[|url| - 1] == s[|s| - 1];
      }
      StripUnpadded(url);
    }
  }

  /** What the page script returns: the page's address, title, cleaned
      body text and an ISO timestamp. */
  datatype Extraction = Extraction(url: string, title: string, text: string, timestamp: string)

  /** The text as the display shows it: cut to 500 characters plus "..."
      when longer than 500. */
  function Shown(text: string): (r: string)
    ensures |text| <= 500 ==> r == text
    ensures |text| > 500 ==> |r| == 503 && r[..500] == text[..500] && r[500..] == "..."
  {
    if |text| > 500 then text[..500] + "..." else text
  }

  /** The display section of the `i`-th page (counting from 1). */
  function Section(i: nat, e: Extraction): string {
    "=== Page " + NatToString(i) + " ===\n"
    + "URL: " + e.url + "\n"
    + "Title: " + e.title + "\n"
    + "Timestamp: " + e.timestamp + "\n"
    + "Text Length: " + NatToString(|e.text|) + " characters\n"
    + Repeat('-', 50) + "\n"
    + Shown(e.text)
    + "\n\n"
  }

  /** Sections numbered from 1, one per entry, in order. */
  function Numbered(entries: seq<Extraction>, section: (nat, Extraction) -> string): string
    decreases |entries|
  {
    if entries == [] then ""
    else Numbered(entries[..|entries| - 1], section) + section(|entries|, entries[|entries| - 1])
  }

  function SectionOf(): (nat, Extraction) -> string {
    (i: nat, e: Extraction) => Section(i, e)
  }

  /** The display: one section per extracted page, numbered from 1 in list
      order. */
  function Display(entries: seq<Extraction>): string {
    Numbered(entries, SectionOf())
  }

  /** The sections of the first k entries are where all the sections start,
      and section k+1 follows them. */
  lemma {:induction false} NumberedPrefix(entries: seq<Extraction>, k: nat, section: (nat, Extraction) -> string)
    requires k < |entries|
    ensures StartsWith(Numbered(entries, section), Numbered(entries[..k], section) + section(k + 1, entries[k]))
    decreases |entries|
  {
    var n := |entries| - 1;
    var init := entries[..n];
    var head := Numbered(entries[..k], section) + section(k + 1, entries[k]);
    assert Numbered(entries, section) == Numbered(init, section) + section(n + 1, entries[n]);
    if k < n {
      NumberedPrefix(init, k, section);
      assert init[..k] == entries[..k];
      assert init[k] == entries[k];
      StartsWithExtend(Numbered(init, section), head, section(n + 1, entries[n]));
    } else {
      assert init == entries[..k];
      assert Numbered(entries, section)[..|head|] == head;
    }
  }

  /** The display of the first k pages is where the whole display starts,
      and page k+1's section follows it. */
  lemma DisplayPrefix(entries: seq<Extraction>, k: nat)
    requires k < |entries|
    ensures StartsWith(Display(entries), Display(entries[..k]) + Section(k + 1, entries[k]))
  {
    NumberedPrefix(entries, k, SectionOf());
  }

  // ---------------------------------------------------------------------
  // Building the window.

  /** The window's own attributes that `__init__` binds or reads. */
  datatype Attr =
    | CurrentUrl | ExtractedTexts | CurrentPageIndex | UrlsToVisit | IsAutoMode
    | UrlInput | GoButton | BackButton | ForwardButton | RefreshButton
    | UsernameInput | PasswordInput | LoginButton
    | ExtractButton | SaveButton | ClearButton
    | AutoModeCheckbox | DelaySpinbox | NextButton | SkipButton
    | StatusLabel | ProgressBar | WebView | ExtractedTextDisplay | WebPage
  {
    /** The attribute's Python name. */
    function Name(): string {
      match this
      case CurrentUrl => "current_url"
      case ExtractedTexts => "extracted_texts"
      case CurrentPageIndex => "current_page_index"
      case UrlsToVisit => "urls_to_visit"
      case IsAutoMode => "is_auto_mode"
      case UrlInput => "url_input"
      case GoButton => "go_button"
      case BackButton => "back_button"
      case ForwardButton => "forward_button"
      case RefreshButton => "refresh_button"
      case UsernameInput => "username_input"
      case PasswordInput => "password_input"
      case LoginButton => "login_button"
      case ExtractButton => "extract_button"
      case SaveButton => "save_button"
      case ClearButton => "clear_button"
      case AutoModeCheckbox => "auto_mode_checkbox"
      case DelaySpinbox => "delay_spinbox"
      case NextButton => "next_button"
      case SkipButton => "skip_button"
      case StatusLabel => "status_label"
      case ProgressBar => "progress_bar"
      case WebView => "web_view"
      case ExtractedTextDisplay => "extracted_text_display"
      case WebPage => "web_page"
    }
  }

  /** One step of `__init__` that touches an attribute of the window
      object: binding it (`self.x = ...`) or reading it (`self.x`). Reads
      of methods are left out, since the class always has them. */
  datatype AttrStep = Bind(attr: Attr) | Use(attr: Attr)

  /** The attributes the steps bind. */
  function Binds(steps: seq<AttrStep>): set<Attr>
    decreases |steps|
  {
    if steps == [] then {}
    else (if steps[0].Bind? then {steps[0].attr} else {}) + Binds(steps[1..])
  }

  /** Every read finds its attribute bound, before the steps or by an
      earlier step. */
  ghost predicate ReadsAfterBinds(steps: seq<AttrStep>, bound: set<Attr>) {
    forall i :: 0 <= i < |steps| && steps[i].Use? ==> steps[i].attr in bound + Binds(steps[..i])
  }

  /** Step i is the first read of an attribute that is not bound yet. */
  ghost predicate FirstUnboundRead(steps: seq<AttrStep>, bound: set<Attr>, i: int) {
    0 <= i < |steps| && steps[i].Use? && steps[i].attr !in bound + Binds(steps[..i])
    && ReadsAfterBinds(steps[..i], bound)
  }

  /** What Python raises when an attribute is read before it is bound. */
  function NoAttribute(attr: Attr): Error {
    Error(LookupError, "'WebExplorer' object has no attribute '" + attr.Name() + "'")
  }

  /** What running some steps comes to: the attributes bound at the end,
      or the attribute of the first read that finds it unbound. */
  datatype Outcome = Built(names: set<Attr>) | Unbound(attr: Attr)

  /** Running the steps from the attributes in `bound`. */
  function Build(steps: seq<AttrStep>, bound: set<Attr>): Outcome
    decreases |steps|
  {
    if steps == [] then Built(bound)
    else match steps[0]
      case Bind(a) => Build(steps[1..], bound + {a})
      case Use(a) => if a in bound then Build(steps[1..], bound) else Unbound(a)
  }

  /** `WebExplorer()` running the given `__init__` steps: the attributes
      of the new window, or the AttributeError Python raises. */
  function Construct(steps: seq<AttrStep>): Result<set<Attr>> {
    match Build(steps, {})
    case Built(names) => Ok(names)
    case Unbound(a) => Err(NoAttribute(a))
  }

  lemma ReadsAfterBindsCons(steps: seq<AttrStep>, bound: set<Attr>)
    requires steps != []
    ensures ReadsAfterBinds(steps, bound) <==>
      (steps[0].Use? ==> steps[0].attr in bound) &&
      ReadsAfterBinds(steps[1..], bound + (if steps[0].Bind? then {steps[0].attr} else {}))
  {
    var head := if steps[0].Bind? then {steps[0].attr} else {};
    assert steps[..0] == [];
    forall i | 1 <= i <= |steps|
      ensures Binds(steps[..i]) == head + Binds(steps[1..][..i - 1])
    {
      assert steps[..i][1..] == steps[1..][..i - 1];
    }
    assert forall j :: 0 <= j < |steps| - 1 ==> steps[1..][j] == steps[j + 1];
  }

  /** Building succeeds exactly when every read comes after its binding,
      and then every bound attribute is there; otherwise it stops at the
      first read that comes too early. */
  lemma {:induction false} BuildMeaning(steps: seq<AttrStep>, bound: set<Attr>)
    ensures Build(steps, bound).Built? <==> ReadsAfterBinds(steps, bound)
    ensures Build(steps, bound).Built? ==> Build(steps, bound).names == bound + Binds(steps)
    ensures Build(steps, bound).Unbound? ==>
      exists i :: FirstUnboundRead(steps, bound, i) && Build(steps, bound).attr == steps[i].attr
    decreases |steps|
  {
    if steps != [] {
      var head := if steps[0].Bind? then {steps[0].attr} else {};
      ReadsAfterBindsCons(steps, bound);
      if steps[0].Use? && steps[0].attr !in bound {
        assert steps[..0] == [];
        assert FirstUnboundRead(steps, bound, 0);
      } else {
        var rest := steps[1..];
        BuildMeaning(rest, bound + head);
        assert Build(steps, bound) == Build(rest, bound + head);
        assert Binds(steps) == head + Binds(rest);
        if Build(rest, bound + head).Unbound? {
          var j :| FirstUnboundRead(rest, bound + head, j) && Build(rest, bound + head).attr == rest[j].attr;
          var pre := steps[..j + 1];
          assert pre[1..] == rest[..j];
          assert pre[..j + 1] == pre;
          ReadsAfterBindsCons(pre, bound);
          assert Binds(steps[..j + 1]) == head + Binds(rest[..j]) by {
            assert pre[1..] == rest[..j];
          }
          assert FirstUnboundRead(steps, bound, j + 1);
        }
      }
    }
  }

  /** The attributes the steps read before binding them themselves. */
  function Needs(steps: seq<AttrStep>): set<Attr>
    decreases |steps|
  {
    if steps == [] then {}
    else match steps[0]
      case Bind(a) => Needs(steps[1..]) - {a}
      case Use(a) => {a} + Needs(steps[1..])
  }

  /** Steps whose early reads are all bound succeed, binding theirs. */
  lemma {:induction false} BuildNeeds(steps: seq<AttrStep>, bound: set<Attr>)
    requires Needs(steps) <= bound
    ensures Build(steps, bound) == Built(bound + Binds(steps))
    decreases |steps|
  {
    if steps == [] {
      assert bound + Binds(steps) == bound;
    } else {
      var head := if steps[0].Bind? then {steps[0].attr} else {};
      assert Binds(steps) == head + Binds(steps[1..]);
      match steps[0]
      case Bind(a) =>
        assert Needs(steps[1..]) <= bound + {a};
        BuildNeeds(steps[1..], bound + {a});
        assert bound + {a} + Binds(steps[1..]) == bound + Binds(steps);
      case Use(a) =>
        assert a in bound;
        BuildNeeds(steps[1..], bound);
        assert bound + Binds(steps[1..]) == bound + Binds(steps);
    }
  }

  /** The outcome of a concatenation is the second part run from the
      attributes the first part leaves, unless the first part fails. */
  lemma {:induction false} BuildAppend(a: seq<AttrStep>, b: seq<AttrStep>, bound: set<Attr>)
    ensures Build(a + b, bound) == if Build(a, bound).Built? then Build(b, Build(a, bound).names) else Build(a, bound)
    decreases |a|
  {
    if a == [] {
      assert a + b == b;
    } else {
      assert (a + b)[0] == a[0];
      assert (a + b)[1..] == a[1..] + b;
      match a[0]
      case Bind(x) => BuildAppend(a[1..], b, bound + {x});
      case Use(x) => if x in bound { BuildAppend(a[1..], b, bound); }
    }
  }

  /** Once a prefix fails, nothing after it runs. */
  lemma FailureStays(prefix: seq<AttrStep>, block: seq<AttrStep>, bound: set<Attr>)
    requires Build(prefix, bound).Unbound?
    ensures Build(prefix + block, bound) == Build(prefix, bound)
  {
    BuildAppend(prefix, block, bound);
  }

  /** One more block after a prefix that succeeded with `names`. */
  lemma BuildBlock(prefix: seq<AttrStep>, block: seq<AttrStep>, bound: set<Attr>, names: set<Attr>)
    requires Build(prefix, bound) == Built(names) && Needs(block) <= names
    ensures Build(prefix + block, bound) == Built(names + Binds(block))
  {
    BuildAppend(prefix, block, bound);
    BuildNeeds(block, names);
  }

  /** Two more blocks after a prefix that succeeded with `names`. */
  lemma BuildTwo(prefix: seq<AttrStep>, a: seq<AttrStep>, b: seq<AttrStep>, bound: set<Attr>, names: set<Attr>)
    requires Build(prefix, bound) == Built(names) && Needs(a) <= names && Needs(b) <= names + Binds(a)
    ensures Build(prefix + a + b, bound) == Built(names + Binds(a) + Binds(b))
  {
    BuildBlock(prefix, a, bound, names);
    BuildBlock(prefix + a, b, bound, names + Binds(a));
  }

  // The steps of `__init__`, block by block, in source order.

  /** web_explorer.py:23-27: the plain fields. */
  const FieldSteps: seq<AttrStep> :=
    [Bind(CurrentUrl), Bind(ExtractedTexts), Bind(CurrentPageIndex), Bind(UrlsToVisit), Bind(IsAutoMode)]

  /** web_explorer.py:49-55: the address bar and the Go button. */
  const AddressBarSteps: seq<AttrStep> :=
    [Bind(UrlInput), Use(UrlInput), Use(UrlInput), Bind(GoButton), Use(GoButton)]

  /** web_explorer.py:56-57: the Back button, whose `clicked.connect`
      reads the web view. */
  const BackButtonSteps: seq<AttrStep> := [Bind(BackButton), Use(BackButton), Use(WebView)]

  /** web_explorer.py:58-61: the Forward and Refresh buttons, connected to
      the web view. */
  const ForwardRefreshSteps: seq<AttrStep> :=
    [Bind(ForwardButton), Use(ForwardButton), Use(WebView), Bind(RefreshButton), Use(RefreshButton), Use(WebView)]

  /** web_explorer.py:63-68: the navigation layout. */
  const NavigationLayoutSteps: seq<AttrStep> :=
    [Use(BackButton), Use(ForwardButton), Use(RefreshButton), Use(GoButton), Use(UrlInput)]

  /** web_explorer.py:75-82: the login fields and button. */
  const LoginSteps: seq<AttrStep> :=
    [Bind(UsernameInput), Use(UsernameInput), Bind(PasswordInput), Use(PasswordInput), Use(PasswordInput),
     Bind(LoginButton), Use(LoginButton)]

  /** web_explorer.py:85-88: the login layout. */
  const LoginLayoutSteps: seq<AttrStep> := [Use(UsernameInput), Use(PasswordInput), Use(LoginButton)]

  /** web_explorer.py:94-101: the extraction buttons. */
  const ExtractSteps: seq<AttrStep> :=
    [Bind(ExtractButton), Use(ExtractButton), Bind(SaveButton), Use(SaveButton), Bind(ClearButton), Use(ClearButton)]

  /** web_explorer.py:103-105: the extraction layout. */
  const ExtractLayoutSteps: seq<AttrStep> := [Use(ExtractButton), Use(SaveButton), Use(ClearButton)]

  /** web_explorer.py:111-117: the auto-mode box and the delay spin box. */
  const AutoControlSteps: seq<AttrStep> :=
    [Bind(AutoModeCheckbox), Use(AutoModeCheckbox), Bind(DelaySpinbox), Use(DelaySpinbox), Use(DelaySpinbox),
     Use(DelaySpinbox)]

  /** web_explorer.py:119-123: the Next and Skip buttons. */
  const AutoButtonSteps: seq<AttrStep> := [Bind(NextButton), Use(NextButton), Bind(SkipButton), Use(SkipButton)]

  /** web_explorer.py:125-129: the automation layout. */
  const AutoLayoutSteps: seq<AttrStep> :=
    [Use(AutoModeCheckbox), Use(DelaySpinbox), Use(NextButton), Use(SkipButton)]

  /** web_explorer.py:135-140: the status label ("Ready") and the progress
      bar. */
  const StatusSteps: seq<AttrStep> :=
    [Bind(StatusLabel), Bind(ProgressBar), Use(ProgressBar), Use(StatusLabel), Use(ProgressBar)]

  /** web_explorer.py:155-156: the web view is made. */
  const WebViewSteps: seq<AttrStep> := [Bind(WebView), Use(WebView)]

  /** web_explorer.py:159-166: the text display, and both added to the
      right panel. */
  const TextDisplaySteps: seq<AttrStep> :=
    [Bind(ExtractedTextDisplay), Use(ExtractedTextDisplay), Use(ExtractedTextDisplay), Use(WebView),
     Use(ExtractedTextDisplay)]

  /** web_explorer.py:174-182, `setup_web_engine`: the page, the signals
      and the start page. */
  const WebEngineSteps: seq<AttrStep> :=
    [Bind(WebPage), Use(WebView), Use(WebPage), Use(WebView), Use(WebView), Use(WebView)]

  /** `__init__` as written: the fields, then `setup_ui`, which connects
      the navigation buttons to the web view before it makes it, then
      `setup_web_engine`. */
  function InitAsWritten(): seq<AttrStep> {
    AsWrittenNavigationSteps() + AfterNavigationSteps()
  }

  /** `__init__` as written up to the Back button. */
  function AsWrittenNavigationSteps(): seq<AttrStep> {
    FieldSteps + AddressBarSteps + BackButtonSteps
  }

  /** The rest of `__init__`, the same in both versions apart from where
      the web view is made. */
  function AfterNavigationSteps(): seq<AttrStep> {
    ForwardRefreshSteps + NavigationLayoutSteps
    + LoginSteps + LoginLayoutSteps + ExtractSteps + ExtractLayoutSteps
    + AutoControlSteps + AutoButtonSteps + AutoLayoutSteps + StatusSteps
    + WebViewSteps + TextDisplaySteps + WebEngineSteps
  }

  /** The corrected `__init__` up to the navigation layout: the web view
      is made first in `setup_ui`, before anything is connected to it. */
  function CorrectedNavigationSteps(): seq<AttrStep> {
    FieldSteps + WebViewSteps + AddressBarSteps + BackButtonSteps + ForwardRefreshSteps + NavigationLayoutSteps
  }

  /** ... then the login and extraction groups. */
  function CorrectedLoginSteps(): seq<AttrStep> {
    CorrectedNavigationSteps() + LoginSteps + LoginLayoutSteps + ExtractSteps + ExtractLayoutSteps
  }

  /** ... then the automation and status groups. */
  function CorrectedPanelSteps(): seq<AttrStep> {
    CorrectedLoginSteps() + AutoControlSteps + AutoButtonSteps + AutoLayoutSteps + StatusSteps
  }

  /** `__init__` with the web view made first: the rest is as written. */
  function InitCorrected(): seq<AttrStep> {
    CorrectedPanelSteps() + TextDisplaySteps + WebEngineSteps
  }

  // What each block reads before binding it, and what it binds.

  lemma FieldStepsEffect()
    ensures Needs(FieldSteps) == {} && Binds(FieldSteps) == {CurrentUrl, ExtractedTexts, CurrentPageIndex, UrlsToVisit, IsAutoMode}
  {
  }

  lemma AddressBarStepsEffect()
    ensures Needs(AddressBarSteps) == {} && Binds(AddressBarSteps) == {UrlInput, GoButton}
  {
  }

  lemma BackButtonStepsEffect()
    ensures Needs(BackButtonSteps) == {WebView} && Binds(BackButtonSteps) == {BackButton}
  {
  }

  lemma ForwardRefreshStepsEffect()
    ensures Needs(ForwardRefreshSteps) == {WebView} && Binds(ForwardRefreshSteps) == {ForwardButton, RefreshButton}
  {
  }

  lemma NavigationLayoutStepsEffect()
    ensures Needs(NavigationLayoutSteps) == {BackButton, ForwardButton, RefreshButton, GoButton, UrlInput} && Binds(NavigationLayoutSteps) == {}
  {
  }

  lemma LoginStepsEffect()
    ensures Needs(LoginSteps) == {} && Binds(LoginSteps) == {UsernameInput, PasswordInput, LoginButton}
  {
  }

  lemma LoginLayoutStepsEffect()
    ensures Needs(LoginLayoutSteps) == {UsernameInput, PasswordInput, LoginButton} && Binds(LoginLayoutSteps) == {}
  {
  }

  lemma ExtractStepsEffect()
    ensures Needs(ExtractSteps) == {} && Binds(ExtractSteps) == {ExtractButton, SaveButton, ClearButton}
  {
  }

  lemma ExtractLayoutStepsEffect()
    ensures Needs(ExtractLayoutSteps) == {ExtractButton, SaveButton, ClearButton} && Binds(ExtractLayoutSteps) == {}
  {
  }

  lemma AutoControlStepsEffect()
    ensures Needs(AutoControlSteps) == {} && Binds(AutoControlSteps) == {AutoModeCheckbox, DelaySpinbox}
  {
  }

  lemma AutoButtonStepsEffect()
    ensures Needs(AutoButtonSteps) == {} && Binds(AutoButtonSteps) == {NextButton, SkipButton}
  {
  }

  lemma AutoLayoutStepsEffect()
    ensures Needs(AutoLayoutSteps) == {AutoModeCheckbox, DelaySpinbox, NextButton, SkipButton} && Binds(AutoLayoutSteps) == {}
  {
  }

  lemma StatusStepsEffect()
    ensures Needs(StatusSteps) == {} && Binds(StatusSteps) == {StatusLabel, ProgressBar}
  {
  }

  lemma WebViewStepsEffect()
    ensures Needs(WebViewSteps) == {} && Binds(WebViewSteps) == {WebView}
  {
  }

  lemma TextDisplayStepsEffect()
    ensures Needs(TextDisplaySteps) == {WebView} && Binds(TextDisplaySteps) == {ExtractedTextDisplay}
  {
  }

  lemma WebEngineStepsEffect()
    ensures Needs(WebEngineSteps) == {WebView} && Binds(WebEngineSteps) == {WebPage}
  {
  }

  /** The Back button's connection fails when the web view is not there. */
  lemma BackFailsAfter(prefix: seq<AttrStep>, bound: set<Attr>, names: set<Attr>)
    requires Build(prefix, bound) == Built(names) && WebView !in names && BackButton !in names
    ensures Build(prefix + BackButtonSteps, bound) == Unbound(WebView)
  {
    BuildAppend(prefix, BackButtonSteps, bound);
    assert BackButtonSteps[1..][1..][0] == Use(WebView);
  }

  /** The as-written navigation group fails at the Back button. */
  lemma NavigationFails()
    ensures Build(AsWrittenNavigationSteps(), {}) == Unbound(WebView)
  {
    FieldStepsEffect();
    AddressBarStepsEffect();
    BuildNeeds(FieldSteps, {});
    var fields := {CurrentUrl, ExtractedTexts, CurrentPageIndex, UrlsToVisit, IsAutoMode};
    assert {} + Binds(FieldSteps) == fields;
    BuildBlock(FieldSteps, AddressBarSteps, {}, fields);
    var names := fields + {UrlInput, GoButton};
    BackFailsAfter(FieldSteps + AddressBarSteps, {}, names);
  }

  /** As written, `WebExplorer()` always raises AttributeError: the Back
      button's `clicked.connect(self.web_view.back)` (web_explorer.py:57)
      reads the web view before web_explorer.py:155 binds it. */
  lemma ConstructionFails()
    ensures Build(InitAsWritten(), {}) == Unbound(WebView)
    ensures Construct(InitAsWritten()) == Err(NoAttribute(WebView))
  {
    NavigationFails();
    FailureStays(AsWrittenNavigationSteps(), AfterNavigationSteps(), {});
  }

  /** The message of that AttributeError. */
  lemma WebViewMissingMessage()
    ensures NoAttribute(WebView).message == "'WebExplorer' object has no attribute 'web_view'"
  {
  }

  /** The attributes each group of the corrected `__init__` binds. */
  function NavigationAttrs(): set<Attr> {
    {CurrentUrl, ExtractedTexts, CurrentPageIndex, UrlsToVisit, IsAutoMode, WebView,
     UrlInput, GoButton, BackButton, ForwardButton, RefreshButton}
  }

  function LoginExtractAttrs(): set<Attr> {
    {UsernameInput, PasswordInput, LoginButton, ExtractButton, SaveButton, ClearButton}
  }

  function PanelAttrs(): set<Attr> {
    {AutoModeCheckbox, DelaySpinbox, NextButton, SkipButton, StatusLabel, ProgressBar}
  }

  function DisplayAttrs(): set<Attr> {
    {ExtractedTextDisplay, WebPage}
  }

  /** With the web view made first, the navigation group builds. */
  lemma CorrectedNavigation(bound: set<Attr>)
    ensures Build(CorrectedNavigationSteps(), bound).Built?
    ensures NavigationAttrs() <= Build(CorrectedNavigationSteps(), bound).names
  {
    FieldStepsEffect();
    WebViewStepsEffect();
    AddressBarStepsEffect();
    BackButtonStepsEffect();
    ForwardRefreshStepsEffect();
    NavigationLayoutStepsEffect();
    BuildNeeds(FieldSteps, bound);
    var names := bound + Binds(FieldSteps);
    BuildTwo(FieldSteps, WebViewSteps, AddressBarSteps, bound, names);
    var p := FieldSteps + WebViewSteps + AddressBarSteps;
    names := names + Binds(WebViewSteps) + Binds(AddressBarSteps);
    BuildTwo(p, BackButtonSteps, ForwardRefreshSteps, bound, names);
    p := p + BackButtonSteps + ForwardRefreshSteps;
    names := names + Binds(BackButtonSteps) + Binds(ForwardRefreshSteps);
    BuildBlock(p, NavigationLayoutSteps, bound, names);
  }

  /** ... and so do the login and extraction groups after it. */
  lemma CorrectedLoginAndExtract(bound: set<Attr>)
    requires Build(CorrectedNavigationSteps(), bound).Built?
    requires NavigationAttrs() <= Build(CorrectedNavigationSteps(), bound).names
    ensures Build(CorrectedLoginSteps(), bound).Built?
    ensures NavigationAttrs() + LoginExtractAttrs() <= Build(CorrectedLoginSteps(), bound).names
  {
    LoginStepsEffect();
    LoginLayoutStepsEffect();
    ExtractStepsEffect();
    ExtractLayoutStepsEffect();
    var p := CorrectedNavigationSteps();
    var names := Build(p, bound).names;
    BuildTwo(p, LoginSteps, LoginLayoutSteps, bound, names);
    names := names + Binds(LoginSteps) + Binds(LoginLayoutSteps);
    BuildTwo(p + LoginSteps + LoginLayoutSteps, ExtractSteps, ExtractLayoutSteps, bound, names);
  }

  /** ... and so do the automation and status groups. */
  lemma CorrectedPanels(bound: set<Attr>)
    requires Build(CorrectedLoginSteps(), bound).Built?
    requires NavigationAttrs() + LoginExtractAttrs() <= Build(CorrectedLoginSteps(), bound).names
    ensures Build(CorrectedPanelSteps(), bound).Built?
    ensures NavigationAttrs() + LoginExtractAttrs() + PanelAttrs() <= Build(CorrectedPanelSteps(), bound).names
  {
    AutoControlStepsEffect();
    AutoButtonStepsEffect();
    AutoLayoutStepsEffect();
    StatusStepsEffect();
    var p := CorrectedLoginSteps();
    var names := Build(p, bound).names;
    BuildTwo(p, AutoControlSteps, AutoButtonSteps, bound, names);
    names := names + Binds(AutoControlSteps) + Binds(AutoButtonSteps);
    BuildTwo(p + AutoControlSteps + AutoButtonSteps, AutoLayoutSteps, StatusSteps, bound, names);
  }

  /** ... and so do the text display and `setup_web_engine`, which need
      only the web view. */
  lemma CorrectedDisplay(bound: set<Attr>)
    requires Build(CorrectedPanelSteps(), bound).Built?
    requires NavigationAttrs() + LoginExtractAttrs() + PanelAttrs() <= Build(CorrectedPanelSteps(), bound).names
    ensures Build(InitCorrected(), bound).Built?
    ensures NavigationAttrs() + LoginExtractAttrs() + PanelAttrs() + DisplayAttrs() <= Build(InitCorrected(), bound).names
  {
    TextDisplayStepsEffect();
    WebEngineStepsEffect();
    var names := Build(CorrectedPanelSteps(), bound).names;
    assert WebView in NavigationAttrs();
    BuildTwo(CorrectedPanelSteps(), TextDisplaySteps, WebEngineSteps, bound, names);
  }

  /** Every attribute belongs to one of the groups. */
  lemma EveryAttrGrouped(a: Attr)
    ensures a in NavigationAttrs() + LoginExtractAttrs() + PanelAttrs() + DisplayAttrs()
  {
  }

  /** With the web view made first, `__init__` runs to the end and binds
      every attribute the window uses, the status label among them. */
  lemma ConstructionCorrected()
    ensures Construct(InitCorrected()).Ok?
    ensures forall a: Attr :: a in Construct(InitCorrected()).value
  {
    CorrectedNavigation({});
    CorrectedLoginAndExtract({});
    CorrectedPanels({});
    CorrectedDisplay({});
    forall a: Attr ensures a in Build(InitCorrected(), {}).names {
      EveryAttrGrouped(a);
    }
  }

  /** The main window's state that the text log touches: the extracted
      pages, the display text, the status line, and the addresses handed to
      the web view to load. */
  class Explorer {
    var extractedTexts: seq<Extraction>
    var display: string
    var status: string
    var loaded: seq<string>

    ghost predicate Valid()
      reads this
    {
      display == Display(extractedTexts)
    }

    /** The window after the corrected `__init__` (ConstructionCorrected):
        as written, construction raises before it gets this far
        (ConstructionFails). */
    constructor()
      ensures Valid()
      ensures extractedTexts == [] && display == "" && status == "Ready" && loaded == ["https://www.google.com"]
    {
      extractedTexts := [];
      display := "";
      status := "Ready";
      loaded := ["https://www.google.com"];
    }

    /** `navigate_to_url`: loads the fixed-up address. */
    method NavigateToUrl(input: string)
      modifies this
      ensures loaded == old(loaded) + [NormalizeUrl(input)]
      ensures extractedTexts == old(extractedTexts) && display == old(display) && status == old(status)
    {
      loaded := loaded + [NormalizeUrl(input)];
    }

    /** `update_extracted_text_display`: rebuilds the display section by
        section. */
    method UpdateDisplay()
      modifies this
      ensures Valid()
      ensures extractedTexts == old(extractedTexts) && status == old(status) && loaded == old(loaded)
    {
      var text := "";
      var i := 0;
      while i < |extractedTexts|
        invariant 0 <= i <= |extractedTexts|
        invariant text == Display(extractedTexts[..i])
      {
        assert extractedTexts[..i + 1][..i] == extractedTexts[..i];
        assert Display(extractedTexts[..i + 1]) == Display(extractedTexts[..i]) + SectionOf()(i + 1, extractedTexts[i]);
        text := text + Section(i + 1, extractedTexts[i]);
        i := i + 1;
      }
      assert extractedTexts[..i] == extractedTexts;
      display := text;
    }

    /** `on_text_extracted`: a result, when there is one, goes to the end of
        the list. */
    method OnTextExtracted(result: Option<Extraction>)
      requires Valid()
      modifies this
      ensures Valid()
      ensures result.Some? ==> extractedTexts == old(extractedTexts) + [result.value]
      ensures result.Some? ==> status == "Text extracted from: " + result.value.title
      ensures result.None? ==> extractedTexts == old(extractedTexts) && display == old(display) && status == old(status)
      ensures loaded == old(loaded)
    {
      if result.Some? {
        extractedTexts := extractedTexts + [result.value];
        UpdateDisplay();
        status := "Text extracted from: " + result.value.title;
      }
    }

    /** `skip_current_page`: drops the last page, if any. */
    method SkipCurrentPage()
      requires Valid()
      modifies this
      ensures Valid()
      ensures old(extractedTexts) != [] ==>
        extractedTexts == old(extractedTexts)[..|old(extractedTexts)| - 1] && status == "Current page skipped"
      ensures old(extractedTexts) == [] ==> extractedTexts == [] && status == "No page to skip"
      ensures loaded == old(loaded)
    {
      if extractedTexts != [] {
        extractedTexts := extractedTexts[..|extractedTexts| - 1];
        UpdateDisplay();
        status := "Current page skipped";
      } else {
        status := "No page to skip";
      }
    }

    /** `clear_extracted_text`: empties the list and the display. */
    method ClearExtractedText()
      modifies this
      ensures Valid()
      ensures extractedTexts == [] && display == ""
      ensures status == "Extracted text cleared" && loaded == old(loaded)
    {
      extractedTexts := [];
      display := "";
      status := "Extracted text cleared";
    }
  }

  /** The display after an append is the old display plus the new page's
      section, numbered one past the old count. */
  lemma DisplayAppend(entries: seq<Extraction>, e: Extraction)
    ensures Display(entries + [e]) == Display(entries) + Section(|entries| + 1, e)
  {
    assert (entries + [e])[..|entries|] == entries;
    assert Display(entries + [e]) == Display(entries) + SectionOf()(|entries| + 1, e);
  }
}
