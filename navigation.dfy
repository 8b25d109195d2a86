/**
 * The batch-navigation helpers of the web explorer: the URL work queue
 * (a list without duplicates, a cursor into it and a visited set), the
 * navigation settings object, and the registry of navigation patterns the
 * automatic navigator chooses from.
 */
module Navigation {
  import opened Exceptions
  import opened Text

  predicate NoDuplicates(s: seq<string>) {
    forall i, j :: 0 <= i < j < |s| ==> s[i] != s[j]
  }

  // ---------------------------------------------------------------------
  // The URL list.

  /** The list after `add_url(url)`: appended unless already present. */
  function Added(list: seq<string>, url: string): (r: seq<string>)
    ensures url in r
    ensures url in list ==> r == list
    ensures url !in list ==> r == list + [url]
  {
    if url in list then list else list + [url]
  }

  /** Adding keeps the list free of duplicates. */
  lemma AddedKeepsDistinct(list: seq<string>, url: string)
    requires NoDuplicates(list)
    ensures NoDuplicates(Added(list, url))
  {
    if url !in list {
      var r := list + [url];
      forall i, j | 0 <= i < j < |r| ensures r[i] != r[j] {
        if j == |list| {
          assert r[i] == list[i];
        }
      }
    }
  }

  /** The list after adding `urls` one by one. */
  function AddAll(list: seq<string>, urls: seq<string>): seq<string>
    decreases |urls|
  {
    if urls == [] then list else AddAll(Added(list, urls[0]), urls[1..])
  }

  /** Adding several URLs keeps the earlier list in front, keeps it free of
      duplicates, and holds exactly the old URLs and the new ones. */
  lemma {:induction false} AddAllShape(list: seq<string>, urls: seq<string>)
    requires NoDuplicates(list)
    ensures NoDuplicates(AddAll(list, urls))
    ensures |AddAll(list, urls)| >= |list| && AddAll(list, urls)[..|list|] == list
    ensures forall u :: u in AddAll(list, urls) <==> u in list || u in urls
    decreases |urls|
  {
    if urls != [] {
      var next := Added(list, urls[0]);
      AddedKeepsDistinct(list, urls[0]);
      AddAllShape(next, urls[1..]);
      assert next[..|list|] == list;
      var r := AddAll(list, urls);
      assert r[..|next|] == next;
      assert r[..|list|] == r[..|next|][..|list|];
      forall u ensures u in r <==> u in list || u in urls {
        assert u in urls <==> u == urls[0] || u in urls[1..];
      }
    }
  }

  /** What one stripped line of a URL file contributes: the line, unless
      it is empty or a comment. */
  function Kept(url: string): (r: seq<string>)
    ensures |r| <= 1
    ensures r != [] <==> url != "" && url[0] != '#'
    ensures r != [] ==> r[0] == url
  {
    if url != "" && url[0] != '#' then [url] else []
  }

  /** The kept lines of `lines` after cleaning each with `clean`, in
      order. */
  function Picked(clean: string -> string, lines: seq<string>): (r: seq<string>)
    ensures |r| <= |lines|
    ensures forall i :: 0 <= i < |r| ==> r[i] != "" && r[i][0] != '#'
    decreases |lines|
  {
    if lines == [] then [] else Picked(clean, lines[..|lines| - 1]) + Kept(clean(lines[|lines| - 1]))
  }

  function StripLine(): string -> string {
    line => Strip(line)
  }

  /** The URLs `add_urls_from_file` adds: the file's lines stripped, without
      blank lines and comments, in file order. */
  function FileUrls(lines: seq<string>): seq<string> {
    Picked(StripLine(), lines)
  }

  /** A line's URL is kept exactly when it is neither empty nor a comment. */
  lemma {:induction false} PickedMembers(clean: string -> string, lines: seq<string>, url: string)
    ensures url in Picked(clean, lines) <==>
      url != "" && url[0] != '#' && exists i :: 0 <= i < |lines| && clean(lines[i]) == url
    decreases |lines|
  {
    if lines != [] {
      var n := |lines| - 1;
      var init := lines[..n];
      PickedMembers(clean, init, url);
      assert Picked(clean, lines) == Picked(clean, init) + Kept(clean(lines[n]));
      assert url in Kept(clean(lines[n])) <==> url != "" && url[0] != '#' && clean(lines[n]) == url;
      CleanedSnoc(clean, lines, init, url);
    }
  }

  /** Some line of `lines` cleans to `url` exactly when some line before
      the last does or the last does. */
  lemma CleanedSnoc(clean: string -> string, lines: seq<string>, init: seq<string>, url: string)
    requires lines != [] && init == lines[..|lines| - 1]
    ensures (exists i :: 0 <= i < |lines| && clean(lines[i]) == url) <==>
      (exists i :: 0 <= i < |init| && clean(init[i]) == url) || clean(lines[|lines| - 1]) == url
  {
    if exists i :: 0 <= i < |lines| && clean(lines[i]) == url {
      var i :| 0 <= i < |lines| && clean(lines[i]) == url;
      if i < |init| {
        assert init[i] == lines[i];
      }
    }
    if exists i :: 0 <= i < |init| && clean(init[i]) == url {
      var i :| 0 <= i < |init| && clean(init[i]) == url;
      assert lines[i] == init[i];
    }
  }

  /** A URL comes from the file exactly when some line strips to it and it
      is neither empty nor a comment. */
  lemma FileUrlsMembers(lines: seq<string>, url: string)
    ensures url in FileUrls(lines) <==>
      url != "" && url[0] != '#' && exists i :: 0 <= i < |lines| && StripLine()(lines[i]) == url
  {
    PickedMembers(StripLine(), lines, url);
  }

  /** The index `get_next_url` stops at: the first position at or after `i`
      whose URL has not been visited, or the end of the list. */
  function NextIndex(list: seq<string>, i: nat, visited: set<string>): (j: nat)
    requires i <= |list|
    ensures i <= j <= |list|
    decreases |list| - i
  {
    if i == |list| then i
    else if list[i] !in visited then i
    else NextIndex(list, i + 1, visited)
  }

  /** NextIndex finds the first unvisited URL from the cursor on: every URL
      it passes over was visited, and the one it stops at was not. */
  lemma {:induction false} NextIndexIsFirst(list: seq<string>, i: nat, visited: set<string>)
    requires i <= |list|
    ensures NextIndex(list, i, visited) < |list| ==> list[NextIndex(list, i, visited)] !in visited
    ensures forall k :: i <= k < NextIndex(list, i, visited) ==> list[k] in visited
    ensures NextIndex(list, i, visited) == |list| <==> forall k :: i <= k < |list| ==> list[k] in visited
    decreases |list| - i
  {
    if i < |list| && list[i] in visited {
      NextIndexIsFirst(list, i + 1, visited);
    }
  }

  /** What `get_progress` reports. */
  datatype Progress = Progress(total: nat, visited: nat, remaining: int, currentIndex: nat)

  /** The `remaining` figure of the progress report. */
  function Remaining(list: seq<string>, visited: set<string>): int {
    |list| - |visited|
  }

  /** The remaining count is never negative while every visited URL is on
      the list. */
  lemma RemainingNonNegative(list: seq<string>, visited: set<string>)
    requires NoDuplicates(list)
    requires forall u :: u in visited ==> u in list
    ensures Remaining(list, visited) >= 0
  {
    var elems := set i | 0 <= i < |list| :: list[i];
    assert visited <= elems;
    SetOfDistinctSize(list);
    SubsetSize(visited, elems);
  }

  lemma SubsetSize(a: set<string>, b: set<string>)
    requires a <= b
    ensures |a| <= |b|
  {
    assert b == a + (b - a);
  }

  lemma {:induction false} SetOfDistinctSize(list: seq<string>)
    ensures |set i | 0 <= i < |list| :: list[i]| <= |list|
    decreases |list|
  {
    if list != [] {
      var n := |list| - 1;
      SetOfDistinctSize(list[..n]);
      var front := set i | 0 <= i < n :: list[..n][i];
      var all := set i | 0 <= i < |list| :: list[i];
      assert all <= front + {list[n]} by {
        forall u | u in all ensures u in front + {list[n]} {
          var i :| 0 <= i < |list| && list[i] == u;
          if i < n { assert list[..n][i] == u; }
        }
      }
      SubsetSize(all, front + {list[n]});
    }
  }

  /** A URL marked visited from outside the list makes the remaining count
      negative. */
  lemma RemainingCanBeNegative()
    ensures Remaining(["https://a.example"], {"https://b.example", "https://c.example"}) == -1
  {
    assert |{"https://b.example", "https://c.example"}| == 2 by {
      assert "https://b.example"[8] != "https://c.example"[8];
    }
  }

  /** `URLManager`: the list of URLs to process, the cursor of the next one
      to look at, and the URLs visited so far. `handedOut` records, for the
      proofs only, the URLs `GetNextUrl` returned since the last reset. */
  class URLManager {
    var urlList: seq<string>
    var currentIndex: nat
    var visited: set<string>
    ghost var handedOut: seq<string>

    ghost predicate Valid()
      reads this
    {
      currentIndex <= |urlList| &&
      NoDuplicates(urlList) &&
      NoDuplicates(handedOut) &&
      (forall k :: 0 <= k < |handedOut| ==> handedOut[k] in visited)
    }

    constructor()
      ensures Valid()
      ensures urlList == [] && currentIndex == 0 && visited == {} && handedOut == []
    {
      urlList := [];
      currentIndex := 0;
      visited := {};
      handedOut := [];
    }

    /** `add_url`: appends unless the URL is already on the list. */
    method AddUrl(url: string)
      requires Valid()
      modifies this
      ensures Valid()
      ensures urlList == Added(old(urlList), url)
      ensures currentIndex == old(currentIndex) && visited == old(visited) && handedOut == old(handedOut)
    {
      AddedKeepsDistinct(urlList, url);
      if url !in urlList {
        urlList := urlList + [url];
      }
    }

    /** `add_urls_from_file`: `lines` is the file's contents, None when the
        file does not exist. */
    method AddUrlsFromFile(filename: string, lines: Option<seq<string>>) returns (failure: Option<Error>)
      requires Valid()
      modifies this
      ensures Valid()
      ensures lines.None? ==> failure == Some(Error(FileNotFound, "URL file not found: " + filename)) && urlList == old(urlList)
      ensures lines.Some? ==> failure == None && urlList == AddAll(old(urlList), FileUrls(lines.value))
      ensures currentIndex == old(currentIndex) && visited == old(visited) && handedOut == old(handedOut)
    {
      if lines.None? {
        return Some(Error(FileNotFound, "URL file not found: " + filename));
      }
      var file := lines.value;
      ghost var start := urlList;
      var k := 0;
      PickedFromFront(StripLine(), file);
      assert file[0..] == file;
      while k < |file|
        invariant 0 <= k <= |file|
        invariant Valid()
        invariant AddAll(start, FileUrls(file)) == AddAll(urlList, Tail(file, k))
        invariant currentIndex == old(currentIndex) && visited == old(visited) && handedOut == old(handedOut)
      {
        ghost var before := urlList;
        AddLine(file[k]);
        TailStep(file, k);
        AddAllConcat(before, Kept(Strip(file[k])), Tail(file, k + 1));
        k := k + 1;
      }
      assert Tail(file, k) == [];
      failure := None;
    }

    /** The loop body of `add_urls_from_file`: one line, stripped, added
        unless it is blank or a comment. */
    method AddLine(line: string)
      requires Valid()
      modifies this
      ensures Valid()
      ensures urlList == AddAll(old(urlList), Kept(Strip(line)))
      ensures currentIndex == old(currentIndex) && visited == old(visited) && handedOut == old(handedOut)
    {
      var url := Strip(line);
      if url != "" && !StartsWith(url, "#") {
        AddUrl(url);
      }
      assert url != "" ==> (StartsWith(url, "#") <==> url[0] == '#');
      if url != "" && url[0] != '#' {
        var one: seq<string> := [url];
        assert one[1..] == [];
      }
    }

    /** `get_next_url`: moves the cursor past the first unvisited URL at or
        after it and returns that URL, marked visited; None with the cursor
        at the end when there is none. */
    method GetNextUrl() returns (url: Option<string>)
      requires Valid()
      modifies this
      ensures Valid()
      ensures urlList == old(urlList)
      ensures currentIndex >= old(currentIndex)
      ensures NextIndex(urlList, old(currentIndex), old(visited)) < |urlList| ==>
        url == Some(urlList[NextIndex(urlList, old(currentIndex), old(visited))]) &&
        currentIndex == NextIndex(urlList, old(currentIndex), old(visited)) + 1 &&
        visited == old(visited) + {url.value} &&
        handedOut == old(handedOut) + [url.value]
      ensures NextIndex(urlList, old(currentIndex), old(visited)) == |urlList| ==>
        url == None && currentIndex == |urlList| && visited == old(visited) && handedOut == old(handedOut)
      ensures url.Some? ==> url.value !in old(handedOut)
    {
      while currentIndex < |urlList|
        invariant old(currentIndex) <= currentIndex <= |urlList|
        invariant NextIndex(urlList, old(currentIndex), visited) == NextIndex(urlList, currentIndex, visited)
        invariant urlList == old(urlList) && visited == old(visited) && handedOut == old(handedOut)
        decreases |urlList| - currentIndex
      {
        var candidate := urlList[currentIndex];
        currentIndex := currentIndex + 1;
        if candidate !in visited {
          visited := visited + {candidate};
          forall k | 0 <= k < |handedOut| ensures handedOut[k] != candidate {
            assert handedOut[k] in old(visited);
          }
          handedOut := handedOut + [candidate];
          return Some(candidate);
        }
      }
      return None;
    }

    /** `mark_url_visited`. */
    method MarkUrlVisited(url: string)
      requires Valid()
      modifies this
      ensures Valid()
      ensures visited == old(visited) + {url}
      ensures urlList == old(urlList) && currentIndex == old(currentIndex) && handedOut == old(handedOut)
    {
      visited := visited + {url};
    }

    /** `reset`: back to the start of the same list, nothing visited. */
    method Reset()
      requires Valid()
      modifies this
      ensures Valid()
      ensures currentIndex == 0 && visited == {} && handedOut == []
      ensures urlList == old(urlList)
    {
      currentIndex := 0;
      visited := {};
      handedOut := [];
    }

    /** `get_progress`: the remaining count is the list's length less the
        number of visited URLs, which can be negative (see
        RemainingCanBeNegative). */
    method GetProgress() returns (p: Progress)
      requires Valid()
      ensures p.total == |urlList| && p.visited == |visited| && p.currentIndex == currentIndex
      ensures p.remaining == Remaining(urlList, visited)
      ensures p.currentIndex <= p.total
    {
      p := Progress(|urlList|, |visited|, Remaining(urlList, visited), currentIndex);
    }
  }

  /** The URLs of the lines from position k on. */
  function Tail(lines: seq<string>, k: nat): seq<string>
    requires k <= |lines|
  {
    PickedFrom(StripLine(), lines[k..])
  }

  /** Picked, built from the front (the loop's order). */
  function PickedFrom(clean: string -> string, lines: seq<string>): (r: seq<string>)
    decreases |lines|
  {
    if lines == [] then [] else Kept(clean(lines[0])) + PickedFrom(clean, lines[1..])
  }

  /** Building from the front, a last line adds its URL at the end. */
  lemma {:induction false} PickedFromSnoc(clean: string -> string, init: seq<string>, line: string)
    ensures PickedFrom(clean, init + [line]) == PickedFrom(clean, init) + Kept(clean(line))
    decreases |init|
  {
    if init == [] {
      assert [] + [line] == [line];
      assert [line][1..] == [];
    } else {
      var s := init + [line];
      assert s[0] == init[0] && s[1..] == init[1..] + [line];
      PickedFromSnoc(clean, init[1..], line);
    }
  }

  /** Both ways of reading a file give the same URLs. */
  lemma {:induction false} PickedFromFront(clean: string -> string, lines: seq<string>)
    ensures PickedFrom(clean, lines) == Picked(clean, lines)
    decreases |lines|
  {
    if lines != [] {
      var n := |lines| - 1;
      var init := lines[..n];
      PickedFromFront(clean, init);
      assert lines == init + [lines[n]];
      PickedFromSnoc(clean, init, lines[n]);
    }
  }

  /** One step of the file loop: line k contributes its kept URL. */
  lemma TailStep(lines: seq<string>, k: nat)
    requires k < |lines|
    ensures Tail(lines, k) == Kept(Strip(lines[k])) + Tail(lines, k + 1)
  {
    assert lines[k..][0] == lines[k] && lines[k..][1..] == lines[k + 1..];
  }

  /** Adding two runs of URLs is adding their concatenation. */
  lemma {:induction false} AddAllConcat(list: seq<string>, a: seq<string>, b: seq<string>)
    ensures AddAll(list, a + b) == AddAll(AddAll(list, a), b)
    decreases |a|
  {
    if a == [] {
      assert a + b == b;
    } else {
      assert (a + b)[0] == a[0] && (a + b)[1..] == a[1..] + b;
      AddAllConcat(Added(list, a[0]), a[1..], b);
    }
  }

  // ---------------------------------------------------------------------
  // Navigation settings.

  /** `NavigationConfig`: the pause between pages in milliseconds, the page
      budget of a session and four switches. */
  class NavigationConfig {
    var delayBetweenPages: int
    var maxPagesPerSession: int
    var extractTextOnEachPage: bool
    var saveAfterEachPage: bool
    var followRedirects: bool
    var respectRobotsTxt: bool
    var userAgent: string

    constructor()
      ensures delayBetweenPages == 3000 && maxPagesPerSession == 100
      ensures extractTextOnEachPage && !saveAfterEachPage && followRedirects && respectRobotsTxt
      ensures userAgent == "Web Explorer Bot/1.0"
    {
      delayBetweenPages := 3000;
      maxPagesPerSession := 100;
      extractTextOnEachPage := true;
      saveAfterEachPage := false;
      followRedirects := true;
      respectRobotsTxt := true;
      userAgent := "Web Explorer Bot/1.0";
    }

    /** `set_delay`: seconds in, milliseconds stored. */
    method SetDelay(seconds: int)
      modifies this
      ensures delayBetweenPages == seconds * 1000
      ensures maxPagesPerSession == old(maxPagesPerSession) && extractTextOnEachPage == old(extractTextOnEachPage)
      ensures saveAfterEachPage == old(saveAfterEachPage) && followRedirects == old(followRedirects)
      ensures respectRobotsTxt == old(respectRobotsTxt) && userAgent == old(userAgent)
    {
      delayBetweenPages := seconds * 1000;
    }

    method SetMaxPages(maxPages: int)
      modifies this
      ensures maxPagesPerSession == maxPages
      ensures delayBetweenPages == old(delayBetweenPages) && extractTextOnEachPage == old(extractTextOnEachPage)
      ensures saveAfterEachPage == old(saveAfterEachPage) && followRedirects == old(followRedirects)
      ensures respectRobotsTxt == old(respectRobotsTxt) && userAgent == old(userAgent)
    {
      maxPagesPerSession := maxPages;
    }

    method EnableTextExtraction(enable: bool)
      modifies this
      ensures extractTextOnEachPage == enable
      ensures delayBetweenPages == old(delayBetweenPages) && maxPagesPerSession == old(maxPagesPerSession)
      ensures saveAfterEachPage == old(saveAfterEachPage) && followRedirects == old(followRedirects)
      ensures respectRobotsTxt == old(respectRobotsTxt) && userAgent == old(userAgent)
    {
      extractTextOnEachPage := enable;
    }

    method EnableAutoSave(enable: bool)
      modifies this
      ensures saveAfterEachPage == enable
      ensures delayBetweenPages == old(delayBetweenPages) && maxPagesPerSession == old(maxPagesPerSession)
      ensures extractTextOnEachPage == old(extractTextOnEachPage) && followRedirects == old(followRedirects)
      ensures respectRobotsTxt == old(respectRobotsTxt) && userAgent == old(userAgent)
    {
      saveAfterEachPage := enable;
    }
  }

  // ---------------------------------------------------------------------
  // The pattern registry of the automatic navigator.

  /** A navigation pattern's name and description; its condition and action
      callbacks are placeholders and are not modelled. */
  datatype NavigationPattern = NavigationPattern(name: string, description: string)

  /** The three patterns the navigator registers at start-up. */
  function CommonPatterns(): (m: map<string, NavigationPattern>)
    ensures m.Keys == {"next_page", "pagination", "article_list"}
    ensures forall k :: k in m ==> m[k].name == k
  {
    map[
      "next_page" := NavigationPattern("next_page", "Follow 'Next' or 'Page X' links"),
      "pagination" := NavigationPattern("pagination", "Follow pagination links"),
      "article_list" := NavigationPattern("article_list", "Follow article links in a list")]
  }

  /** Looking a pattern up by name; an unknown name is a ValueError. */
  function PatternNamed(patterns: map<string, NavigationPattern>, name: string): (r: Result<NavigationPattern>)
    ensures r.Ok? <==> name in patterns
    ensures r.Ok? ==> r.value == patterns[name]
    ensures r.Err? ==> r.error == Error(ValueError, "Unknown navigation pattern: " + name)
  {
    if name in patterns then Ok(patterns[name])
    else Err(Error(ValueError, "Unknown navigation pattern: " + name))
  }

  /** Only the three registered names are accepted. */
  lemma OnlyCommonPatterns(name: string)
    ensures PatternNamed(CommonPatterns(), name).Ok? <==>
      name == "next_page" || name == "pagination" || name == "article_list"
  {
  }

  /** `AdvancedNavigator`: the registry, the chosen pattern, the URLs of the
      current run, its page budget and pause, and the URLs handed to the
      web view to load. */
  class AdvancedNavigator {
    const patterns: map<string, NavigationPattern>
    var currentPattern: Option<NavigationPattern>
    var visitedUrls: set<string>
    var maxPages: int
    var delayBetweenPages: int
    var loaded: seq<string>

    constructor()
      ensures patterns == CommonPatterns() && currentPattern == None
      ensures visitedUrls == {} && maxPages == 100 && delayBetweenPages == 3000 && loaded == []
    {
      patterns := CommonPatterns();
      currentPattern := None;
      visitedUrls := {};
      maxPages := 100;
      delayBetweenPages := 3000;
      loaded := [];
    }

    /** `set_navigation_pattern`: a registered name becomes the current
        pattern; any other raises ValueError and changes nothing. */
    method SetNavigationPattern(name: string) returns (failure: Option<Error>)
      modifies this
      ensures name in patterns ==> failure == None && currentPattern == Some(patterns[name])
      ensures name !in patterns ==>
        failure == Some(Error(ValueError, "Unknown navigation pattern: " + name)) && currentPattern == old(currentPattern)
      ensures visitedUrls == old(visitedUrls) && maxPages == old(maxPages)
      ensures delayBetweenPages == old(delayBetweenPages) && loaded == old(loaded)
    {
      var found := PatternNamed(patterns, name);
      if found.Err? {
        return Some(found.error);
      }
      currentPattern := Some(found.value);
      failure := None;
    }

    /** `start_auto_navigation`: a new run starts with only the start URL
        visited and that URL loaded. */
    method StartAutoNavigation(startUrl: string, maxPagesToVisit: int)
      modifies this
      ensures visitedUrls == {startUrl} && maxPages == maxPagesToVisit
      ensures loaded == old(loaded) + [startUrl]
      ensures currentPattern == old(currentPattern) && delayBetweenPages == old(delayBetweenPages)
    {
      maxPages := maxPagesToVisit;
      visitedUrls := {};
      visitedUrls := visitedUrls + {startUrl};
      loaded := loaded + [startUrl];
    }
  }
}
