/**
 * src/core/scraper.py: the extraction engine and the session accumulator.
 * Extraction reads the page the browser shows through the lookup of Port;
 * each `_extract_*` and `scrape_*` loop is a method proved against a
 * recursive function that says what it produces. The WebScraper class keeps
 * the scraped records, the session counters and the delays it slept.
 */
module Scraper {
  import opened Exceptions
  import opened Records
  import opened Port
  import Text
  import opened BrowserManagement
  import opened FileUtils
  import opened Config

  // ---------------------------------------------------------------------
  // The value of one element.

  /** The attributes `_extract_element_data` tries, in order. */
  const AttributePriority: seq<string> := ["value", "href", "src", "alt", "title"]

  /** The position of the first name whose attribute is truthy, or -1. */
  function FirstTruthy(e: Element, names: seq<string>): (i: int)
    ensures -1 <= i < |names|
    ensures i == -1 <==> forall j :: 0 <= j < |names| ==> TruthyAttribute(e, names[j]).None?
    ensures i >= 0 ==> TruthyAttribute(e, names[i]).Some? && forall j :: 0 <= j < i ==> TruthyAttribute(e, names[j]).None?
  {
    if names == [] then -1
    else if TruthyAttribute(e, names[0]).Some? then 0
    else var k := FirstTruthy(e, names[1..]); if k == -1 then -1 else k + 1
  }

  /** `_extract_element_data`: the stripped text if any; else the first
      truthy attribute among value, href, src, alt and title, stripped (even
      when that leaves ""); else the inner HTML without `<...>` runs,
      stripped. Reading a stale element raises, which yields "". */
  function ElementValue(e: Element): (s: string)
    ensures e.stale ==> s == ""
    ensures !e.stale && Text.Strip(e.text) != "" ==> s == Text.Strip(e.text)
    ensures !e.stale && Text.Strip(e.text) == "" && FirstTruthy(e, AttributePriority) >= 0 ==>
      s == Text.Strip(e.attributes[AttributePriority[FirstTruthy(e, AttributePriority)]])
    ensures !e.stale && Text.Strip(e.text) == "" && FirstTruthy(e, AttributePriority) == -1 ==>
      s == Text.Strip(Text.StripTags(e.innerHtml))
  {
    if e.stale then ""
    else if Text.Strip(e.text) != "" then Text.Strip(e.text)
    else
      var i := FirstTruthy(e, AttributePriority);
      if i >= 0 then Text.Strip(e.attributes[AttributePriority[i]])
      else if e.innerHtml != "" then Text.Strip(Text.StripTags(e.innerHtml))
      else ""
  }

  /** Whatever branch produced it, an element's value has no surrounding
      whitespace. */
  lemma ElementValueStripped(e: Element)
    ensures Text.Strip(ElementValue(e)) == ElementValue(e)
  {
    if !e.stale {
      Text.StripIdempotent(e.text);
      var i := FirstTruthy(e, AttributePriority);
      if i >= 0 {
        Text.StripIdempotent(e.attributes[AttributePriority[i]]);
      } else {
        Text.StripIdempotent(Text.StripTags(e.innerHtml));
      }
    }
  }

  /** A whitespace-only `value` attribute ends the search with "": the
      later attributes and the inner HTML are not tried. */
  lemma BlankValueAttributeStops(e: Element)
    requires !e.stale && Text.Strip(e.text) == ""
    requires "value" in e.attributes && e.attributes["value"] != "" && Text.Strip(e.attributes["value"]) == ""
    ensures ElementValue(e) == ""
  {
    assert FirstTruthy(e, AttributePriority) == 0;
  }

  // ---------------------------------------------------------------------
  // Items.

  /** A field selector: the field's name and its CSS selector. */
  type Selectors = seq<(string, string)>

  function Names(sels: Selectors): (ns: seq<string>)
    ensures |ns| == |sels| && forall i :: 0 <= i < |sels| ==> ns[i] == sels[i].0
  {
    seq(|sels|, i requires 0 <= i < |sels| => sels[i].0)
  }

  /** `find_element` in a scope, as the field's value: None for
      NoSuchElementException, the element's value otherwise. */
  function Found(p: Page, scope: Scope, selector: string): (r: Result<Option<Value>>)
    ensures r.Err? <==> FindElement(p, scope, Css(selector)).Err?
    ensures r.Ok? ==> (r.value.None? <==> FindElement(p, scope, Css(selector)).value.None?)
    ensures r.Ok? && r.value.Some? ==> r.value.value == Str(ElementValue(FindElement(p, scope, Css(selector)).value.value))
  {
    match FindElement(p, scope, Css(selector))
    case Err(e) => Err(e)
    case Ok(None) => Ok(None)
    case Ok(Some(el)) => Ok(Some(Str(ElementValue(el))))
  }

  /** One field: looked up in the container first when there is one, then
      in the whole page; None when both miss. Any other lookup error escapes. */
  function FieldValue(p: Page, container: Option<Element>, selector: string): Result<Value>
    decreases if container.Some? then 1 else 0
  {
    match container
    case None =>
      (match Found(p, Document, selector)
       case Err(e) => Err(e)
       case Ok(None) => Ok(Null)
       case Ok(Some(v)) => Ok(v))
    case Some(c) =>
      (match Found(p, Within(c), selector)
       case Err(e) => Err(e)
       case Ok(Some(v)) => Ok(v)
       case Ok(None) => FieldValue(p, None, selector))
  }

  /** A field is None only when the page-wide lookup misses too; a hit in
      the container wins over the page; a lookup error escapes. */
  lemma FieldValueFacts(p: Page, container: Option<Element>, selector: string)
    ensures var r := FieldValue(p, container, selector);
      (r.Ok? ==> r.value.Null? || r.value.Str?) &&
      (r.Ok? && r.value.Null? ==> Found(p, Document, selector) == Ok(None))
    ensures var r := FieldValue(p, container, selector);
      container.None? ==>
        (r.Err? <==> Found(p, Document, selector).Err?) &&
        (r.Ok? && r.value.Str? ==> Found(p, Document, selector) == Ok(Some(r.value)))
    ensures var r := FieldValue(p, container, selector);
      container.Some? && Found(p, Within(container.value), selector).Ok? ==>
        (Found(p, Within(container.value), selector).value.Some? ==>
          r == Ok(Found(p, Within(container.value), selector).value.value)) &&
        (Found(p, Within(container.value), selector).value.None? ==> r == FieldValue(p, None, selector))
    ensures var r := FieldValue(p, container, selector);
      container.Some? && Found(p, Within(container.value), selector).Err? ==>
        r == Err(Found(p, Within(container.value), selector).error)
  {
  }

  /** The item built from `acc` by assigning the remaining fields in order;
      the first lookup error ends it. */
  function ItemFrom(p: Page, container: Option<Element>, acc: Record, sels: Selectors): (r: Result<Record>)
    decreases |sels|
  {
    if sels == [] then Ok(acc)
    else match FieldValue(p, container, sels[0].1)
      case Err(e) => Err(e)
      case Ok(v) => ItemFrom(p, container, Put(acc, sels[0].0, v), sels[1..])
  }

  /** The item of `_extract_single_item` (no container) or of one container. */
  function Item(p: Page, container: Option<Element>, sels: Selectors): Result<Record> {
    ItemFrom(p, container, [], sels)
  }

  /** An item fails exactly when some field's lookup fails. */
  lemma {:induction false} ItemFromOk(p: Page, container: Option<Element>, acc: Record, sels: Selectors)
    ensures ItemFrom(p, container, acc, sels).Ok? <==>
      forall i :: 0 <= i < |sels| ==> FieldValue(p, container, sels[i].1).Ok?
    decreases |sels|
  {
    if sels != [] {
      var v := FieldValue(p, container, sels[0].1);
      assert forall i :: 0 < i < |sels| ==> sels[i] == sels[1..][i - 1];
      if v.Ok? {
        ItemFromOk(p, container, Put(acc, sels[0].0, v.value), sels[1..]);
      }
    }
  }

  /** An item's keys are the accumulated keys and the field names; nothing
      else. */
  lemma {:induction false} ItemFromKeys(p: Page, container: Option<Element>, acc: Record, sels: Selectors)
    requires ItemFrom(p, container, acc, sels).Ok?
    ensures forall k :: k in Keys(ItemFrom(p, container, acc, sels).value) <==> k in Keys(acc) || k in Names(sels)
    decreases |sels|
  {
    if sels != [] {
      var v := FieldValue(p, container, sels[0].1);
      PutKeys(acc, sels[0].0, v.value);
      ItemFromKeys(p, container, Put(acc, sels[0].0, v.value), sels[1..]);
      assert Names(sels) == [sels[0].0] + Names(sels[1..]);
    }
  }

  /** Assigning fields never duplicates a key. */
  lemma {:induction false} ItemFromUnique(p: Page, container: Option<Element>, acc: Record, sels: Selectors)
    requires ItemFrom(p, container, acc, sels).Ok? && UniqueKeys(acc)
    ensures UniqueKeys(ItemFrom(p, container, acc, sels).value)
    decreases |sels|
  {
    if sels != [] {
      var v := FieldValue(p, container, sels[0].1);
      PutUnique(acc, sels[0].0, v.value);
      ItemFromUnique(p, container, Put(acc, sels[0].0, v.value), sels[1..]);
    }
  }

  /** Keys that are not field names keep their accumulated values. */
  lemma {:induction false} ItemFromOthers(p: Page, container: Option<Element>, acc: Record, sels: Selectors, k: string)
    requires ItemFrom(p, container, acc, sels).Ok? && k !in Names(sels)
    ensures Get(ItemFrom(p, container, acc, sels).value, k) == Get(acc, k)
    decreases |sels|
  {
    if sels != [] {
      var v := FieldValue(p, container, sels[0].1);
      assert Names(sels) == [sels[0].0] + Names(sels[1..]);
      PutGet(acc, sels[0].0, v.value);
      ItemFromOthers(p, container, Put(acc, sels[0].0, v.value), sels[1..], k);
    }
  }

  /** With distinct field names every field reads as its own lookup: a field
      whose element is missing is None and the others are still filled in. */
  lemma {:induction false} ItemFromFields(p: Page, container: Option<Element>, acc: Record, sels: Selectors, i: nat)
    requires i < |sels|
    requires forall a, b :: 0 <= a < b < |sels| ==> sels[a].0 != sels[b].0
    requires ItemFrom(p, container, acc, sels).Ok?
    ensures FieldValue(p, container, sels[i].1).Ok? &&
      Get(ItemFrom(p, container, acc, sels).value, sels[i].0) == Some(FieldValue(p, container, sels[i].1).value)
    decreases |sels|
  {
    var v := FieldValue(p, container, sels[0].1);
    var acc' := Put(acc, sels[0].0, v.value);
    if i == 0 {
      PutGet(acc, sels[0].0, v.value);
      assert sels[0].0 !in Names(sels[1..]);
      ItemFromOthers(p, container, acc', sels[1..], sels[0].0);
    } else {
      assert sels[1..][i - 1] == sels[i];
      ItemFromFields(p, container, acc', sels[1..], i - 1);
    }
  }

  /** `_extract_single_item` / the per-container loop of
      `_extract_multiple_items`. */
  method ExtractItem(p: Page, container: Option<Element>, sels: Selectors) returns (r: Result<Record>)
    ensures r == Item(p, container, sels)
  {
    var item: Record := [];
    var i := 0;
    while i < |sels|
      invariant 0 <= i <= |sels|
      invariant ItemFrom(p, container, item, sels[i..]) == Item(p, container, sels)
    {
      assert sels[i..][1..] == sels[i + 1..];
      var v := FieldValue(p, container, sels[i].1);
      if v.Err? {
        return Err(v.error);
      }
      item := Put(item, sels[i].0, v.value);
      i := i + 1;
    }
    r := Ok(item);
  }

  /** The items of the remaining containers, appended to `acc`; a container
      whose item is empty adds nothing. */
  function ItemsFrom(p: Page, acc: seq<Record>, containers: seq<Element>, sels: Selectors): (r: Result<seq<Record>>)
    decreases |containers|
  {
    if containers == [] then Ok(acc)
    else match Item(p, Some(containers[0]), sels)
      case Err(e) => Err(e)
      case Ok(item) => ItemsFrom(p, acc + (if item != [] then [item] else []), containers[1..], sels)
  }

  /** `_extract_multiple_items`: the first selector finds the containers;
      without selectors `list(...)[0]` raises IndexError. */
  function MultipleItems(p: Page, sels: Selectors): Result<seq<Record>> {
    if sels == [] then Err(Error(LookupError, "list index out of range"))
    else match FindElements(p, Document, Css(sels[0].1))
      case Err(e) => Err(e)
      case Ok(containers) => ItemsFrom(p, [], containers, sels)
  }

  /** With at least one selector an item has at least one key. */
  lemma ItemNonEmpty(p: Page, container: Option<Element>, sels: Selectors)
    requires sels != [] && Item(p, container, sels).Ok?
    ensures Item(p, container, sels).value != []
  {
    ItemFromKeys(p, container, [], sels);
    assert sels[0].0 in Names(sels);
  }

  /** With at least one selector every container yields one record, in
      container order, and that record is the container's item. */
  lemma {:induction false} ItemsFromOnePerContainer(p: Page, acc: seq<Record>, containers: seq<Element>, sels: Selectors)
    requires sels != []
    requires ItemsFrom(p, acc, containers, sels).Ok?
    ensures var r := ItemsFrom(p, acc, containers, sels).value;
      |r| == |acc| + |containers| && r[..|acc|] == acc &&
      forall i :: 0 <= i < |containers| ==> Item(p, Some(containers[i]), sels) == Ok(r[|acc| + i])
    decreases |containers|
  {
    if containers != [] {
      ItemsFromStep(p, acc, containers, sels);
      ItemNonEmpty(p, Some(containers[0]), sels);
      var item := Item(p, Some(containers[0]), sels).value;
      var rest := containers[1..];
      ItemsFromOnePerContainer(p, acc + [item], rest, sels);
      var r := ItemsFrom(p, acc, containers, sels).value;
      assert r == ItemsFrom(p, acc + [item], rest, sels).value;
      assert r[..|acc| + 1] == acc + [item];
      assert r[..|acc|] == r[..|acc| + 1][..|acc|];
      assert r[|acc|] == r[..|acc| + 1][|acc|];
      forall i | 0 <= i < |containers| ensures Item(p, Some(containers[i]), sels) == Ok(r[|acc| + i]) {
        if i > 0 {
          assert containers[i] == rest[i - 1];
        }
      }
    }
  }

  /** One step of `ItemsFrom`: the first container's item decides. */
  lemma ItemsFromStep(p: Page, acc: seq<Record>, containers: seq<Element>, sels: Selectors)
    requires containers != []
    ensures var item := Item(p, Some(containers[0]), sels);
      ItemsFrom(p, acc, containers, sels) ==
        if item.Err? then Err(item.error)
        else ItemsFrom(p, acc + (if item.value != [] then [item.value] else []), containers[1..], sels)
  {
  }

  /** `_extract_multiple_items`, with its two nested loops. */
  method ExtractMultipleItems(p: Page, sels: Selectors) returns (r: Result<seq<Record>>)
    ensures r == MultipleItems(p, sels)
  {
    if sels == [] {
      return Err(Error(LookupError, "list index out of range"));
    }
    var found := FindElements(p, Document, Css(sels[0].1));
    if found.Err? {
      return Err(found.error);
    }
    var containers := found.value;
    var items: seq<Record> := [];
    var i := 0;
    while i < |containers|
      invariant 0 <= i <= |containers|
      invariant ItemsFrom(p, items, containers[i..], sels) == MultipleItems(p, sels)
    {
      ItemsFromStep(p, items, containers[i..], sels);
      assert containers[i..][0] == containers[i] && containers[i..][1..] == containers[i + 1..];
      var item := ExtractItem(p, Some(containers[i]), sels);
      if item.Err? {
        return Err(item.error);
      }
      ghost var before := items;
      if item.value != [] {
        items := items + [item.value];
      }
      assert items == before + (if item.value != [] then [item.value] else []);
      assert ItemsFrom(p, items, containers[i + 1..], sels) == ItemsFrom(p, before, containers[i..], sels);
      i := i + 1;
    }
    r := Ok(items);
  }

  /** `item and any(item.values())`. */
  predicate Informative(item: Record) {
    item != [] && AnyTruthy(item)
  }

  /** `scrape_page`'s filter: the informative items, in order. */
  function Keep(items: seq<Record>): (kept: seq<Record>)
    ensures |kept| <= |items|
    ensures forall x :: x in kept <==> x in items && Informative(x)
  {
    if items == [] then []
    else (if Informative(items[0]) then [items[0]] else []) + Keep(items[1..])
  }

  /** The filter keeps the survivors in their order and with their
      multiplicity: it distributes over concatenation, and a single record
      is kept exactly when it is informative. */
  lemma KeepInOrder(a: seq<Record>, b: seq<Record>)
    ensures Keep(a + b) == Keep(a) + Keep(b)
    ensures forall x :: Keep([x]) == if Informative(x) then [x] else []
  {
    KeepAppend(a, b);
    forall x ensures Keep([x]) == if Informative(x) then [x] else [] {
      KeepOne(x);
    }
  }

  lemma {:induction false} KeepAppend(a: seq<Record>, b: seq<Record>)
    ensures Keep(a + b) == Keep(a) + Keep(b)
  {
    if a == [] {
      assert a + b == b;
    } else {
      var head := if Informative(a[0]) then [a[0]] else [];
      assert (a + b)[0] == a[0];
      assert (a + b)[1..] == a[1..] + b;
      KeepAppend(a[1..], b);
      assert Keep(a + b) == head + Keep(a[1..] + b);
      assert Keep(a) == head + Keep(a[1..]);
    }
  }

  lemma KeepOne(x: Record)
    ensures Keep([x]) == if Informative(x) then [x] else []
  {
    assert [x][0] == x;
    assert [x][1..] == [];
  }

  /** What `scrape_page` extracts from the page before filtering. */
  function PageItems(p: Page, sels: Selectors, multiple: bool): Result<seq<Record>> {
    if multiple then MultipleItems(p, sels)
    else match Item(p, None, sels)
      case Err(e) => Err(e)
      case Ok(item) => Ok([item])
  }

  /** The single item of a page whose selectors all miss is all None, so
      `scrape_page` keeps nothing. */
  lemma AllMissingKeepsNothing(p: Page, sels: Selectors)
    requires forall i :: 0 <= i < |sels| ==> Found(p, Document, sels[i].1) == Ok(None)
    ensures PageItems(p, sels, false).Ok? && Keep(PageItems(p, sels, false).value) == []
  {
    AllNullFrom(p, [], sels);
  }

  lemma {:induction false} AllNullFrom(p: Page, acc: Record, sels: Selectors)
    requires forall i :: 0 <= i < |sels| ==> Found(p, Document, sels[i].1) == Ok(None)
    requires forall i :: 0 <= i < |acc| ==> acc[i].value == Null
    ensures ItemFrom(p, None, acc, sels).Ok?
    ensures !AnyTruthy(ItemFrom(p, None, acc, sels).value)
    decreases |sels|
  {
    if sels != [] {
      var acc' := Put(acc, sels[0].0, Null);
      PutNullKeepsNull(acc, sels[0].0);
      assert forall i :: 0 < i < |sels| ==> sels[1..][i - 1] == sels[i];
      AllNullFrom(p, acc', sels[1..]);
    }
  }

  lemma {:induction false} PutNullKeepsNull(r: Record, k: string)
    requires forall i :: 0 <= i < |r| ==> r[i].value == Null
    ensures forall i :: 0 <= i < |Put(r, k, Null)| ==> Put(r, k, Null)[i].value == Null
  {
    if r != [] && r[0].key != k {
      PutNullKeepsNull(r[1..], k);
    }
  }

  /** `_extract_multiple_items` or the single item, then the filter. */
  method ExtractPage(p: Page, sels: Selectors, multiple: bool) returns (r: Result<seq<Record>>)
    ensures PageItems(p, sels, multiple).Err? ==> r == PageItems(p, sels, multiple)
    ensures PageItems(p, sels, multiple).Ok? ==> r == Ok(Keep(PageItems(p, sels, multiple).value))
  {
    var items: Result<seq<Record>>;
    if multiple {
      items := ExtractMultipleItems(p, sels);
    } else {
      var item := ExtractItem(p, None, sels);
      items := if item.Ok? then Ok([item.value]) else Err(item.error);
    }
    r := if items.Ok? then Ok(Keep(items.value)) else items;
  }

  // ---------------------------------------------------------------------
  // Tables.

  /** The key of cell i: its header when there is one, else `column_i`. */
  function HeaderName(headers: seq<string>, i: nat): string {
    if i < |headers| then headers[i] else "column_" + Text.NatToString(i)
  }

  /** The header texts, `cell.text.strip()` per cell; a stale cell raises. */
  function CellTexts(cells: seq<Element>): (r: Result<seq<string>>)
    ensures r.Ok? <==> forall i :: 0 <= i < |cells| ==> !cells[i].stale
    ensures r.Ok? ==> |r.value| == |cells| && forall i :: 0 <= i < |cells| ==> r.value[i] == Text.Strip(cells[i].text)
    ensures r.Err? ==> r.error == Stale()
  {
    if exists i :: 0 <= i < |cells| && cells[i].stale then Err(Stale())
    else Ok(seq(|cells|, i requires 0 <= i < |cells| => Text.Strip(cells[i].text)))
  }

  /** The headers of `scrape_table`: the texts of the cells of the first
      `thead tr, tr:first-child` row, or none when there is no such row. */
  function Headers(p: Page, table: Element): Result<seq<string>> {
    match FindElement(p, Within(table), Css("thead tr, tr:first-child"))
    case Err(e) => Err(e)
    case Ok(None) => Ok([])
    case Ok(Some(row)) =>
      match FindElements(p, Within(row), Css("th, td"))
      case Err(e) => Err(e)
      case Ok(cells) => CellTexts(cells)
  }

  /** The first `tbody` when the table has one, the table itself otherwise. */
  function TableBody(p: Page, table: Element): (r: Result<Element>)
    ensures FindElements(p, Within(table), Css("tbody")) == Ok([]) ==> r == Ok(table)
    ensures (FindElements(p, Within(table), Css("tbody")).Ok? && FindElements(p, Within(table), Css("tbody")).value != []) ==>
      r == Ok(FindElements(p, Within(table), Css("tbody")).value[0])
  {
    match FindElements(p, Within(table), Css("tbody"))
    case Err(e) => Err(e)
    case Ok(bodies) =>
      if bodies == [] then Ok(table)
      else match FindElement(p, Within(table), Css("tbody"))
        case Err(e) => Err(e)
        case Ok(None) => Err(NoSuchElementError(Css("tbody")))
        case Ok(Some(b)) => Ok(b)
  }

  /** The record of one row: each cell's value under its key, assigned left
      to right, so a repeated header keeps the later cell. */
  function RowRecord(headers: seq<string>, cells: seq<Element>): Record
    decreases |cells|
  {
    if cells == [] then []
    else
      var n := |cells| - 1;
      Put(RowRecord(headers, cells[..n]), HeaderName(headers, n), CellValue(cells[n]))
  }

  /** What a cell holds in its row's record. */
  function CellValue(cell: Element): Value {
    Str(ElementValue(cell))
  }

  /** The first n cell keys are pairwise distinct. */
  predicate DistinctNames(headers: seq<string>, n: nat) {
    forall i, j :: 0 <= i < j < n ==> HeaderName(headers, i) != HeaderName(headers, j)
  }

  /** With distinct keys, a row's record has one entry per cell, in cell
      order: cell i's value under HeaderName(headers, i). */
  lemma {:induction false} RowRecordCells(headers: seq<string>, cells: seq<Element>)
    requires DistinctNames(headers, |cells|)
    ensures var r := RowRecord(headers, cells);
      |r| == |cells| &&
      forall i :: 0 <= i < |cells| ==> r[i] == Entry(HeaderName(headers, i), CellValue(cells[i]))
    decreases |cells|
  {
    if cells != [] {
      var n := |cells| - 1;
      var front := cells[..n];
      assert DistinctNames(headers, n);
      RowRecordCells(headers, front);
      var r0 := RowRecord(headers, front);
      var k := HeaderName(headers, n);
      var v := CellValue(cells[n]);
      forall i | 0 <= i < n ensures Keys(r0)[i] != k {
        assert Keys(r0)[i] == HeaderName(headers, i);
      }
      assert k !in Keys(r0);
      PutAbsent(r0, k, v);
      var r := r0 + [Entry(k, v)];
      assert RowRecord(headers, cells) == r;
      forall i | 0 <= i < |cells| ensures r[i] == Entry(HeaderName(headers, i), CellValue(cells[i])) {
        if i < n {
          assert front[i] == cells[i];
          assert r[i] == r0[i];
        }
      }
    }
  }

  /** The generated keys column_0, column_1, ... are pairwise distinct. */
  lemma ColumnNamesDistinct(headers: seq<string>, n: nat)
    requires |headers| == 0
    ensures DistinctNames(headers, n)
  {
    forall i, j | 0 <= i < j < n ensures HeaderName(headers, i) != HeaderName(headers, j) {
      var a := Text.NatToString(i);
      var b := Text.NatToString(j);
      assert ("column_" + a)[7..] == a;
      assert ("column_" + b)[7..] == b;
      Text.NatToStringInjective(i, j);
    }
  }

  /** A table without headers keys its cells column_0, column_1, ..., one
      entry per cell. */
  lemma HeaderlessRow(cells: seq<Element>)
    ensures var r := RowRecord([], cells);
      |r| == |cells| && UniqueKeys(r) &&
      forall i :: 0 <= i < |cells| ==> r[i] == Entry("column_" + Text.NatToString(i), CellValue(cells[i]))
  {
    ColumnNamesDistinct([], |cells|);
    RowRecordCells([], cells);
  }

  /** Distinct headers, at least as many as cells, key each cell by its
      header. */
  lemma HeadedRow(headers: seq<string>, cells: seq<Element>)
    requires |cells| <= |headers|
    requires forall i, j :: 0 <= i < j < |headers| ==> headers[i] != headers[j]
    ensures var r := RowRecord(headers, cells);
      |r| == |cells| && UniqueKeys(r) &&
      forall i :: 0 <= i < |cells| ==> r[i] == Entry(headers[i], CellValue(cells[i]))
  {
    RowRecordCells(headers, cells);
  }

  /** When two cells share a header the record keeps only the later value. */
  lemma RepeatedHeader(h: string, a: Element, b: Element)
    ensures RowRecord([h, h], [a, b]) == [Entry(h, CellValue(b))]
  {
    assert [a, b][..1] == [a];
    assert [a][..0] == [];
    assert RowRecord([h, h], [a]) == [Entry(h, CellValue(a))];
    assert HeaderName([h, h], 1) == h;
  }

  /** `row.find_elements(By.CSS_SELECTOR, "td, th")`. */
  function RowCells(p: Page, row: Element): Result<seq<Element>> {
    FindElements(p, Within(row), Css("td, th"))
  }

  /** The rows' records appended to `acc`; a row without cells adds none. */
  function RowsFrom(p: Page, headers: seq<string>, acc: seq<Record>, rows: seq<Element>): Result<seq<Record>>
    decreases |rows|
  {
    if rows == [] then Ok(acc)
    else match RowCells(p, rows[0])
      case Err(e) => Err(e)
      case Ok(cells) => RowsFrom(p, headers, acc + (if cells != [] then [RowRecord(headers, cells)] else []), rows[1..])
  }

  /** An extraction of rows fails exactly when looking up some row's cells
      fails. */
  lemma {:induction false} RowsFromOk(p: Page, headers: seq<string>, acc: seq<Record>, rows: seq<Element>)
    ensures RowsFrom(p, headers, acc, rows).Ok? <==>
      forall i :: 0 <= i < |rows| ==> RowCells(p, rows[i]).Ok?
    decreases |rows|
  {
    if rows != [] {
      assert forall i :: 0 < i < |rows| ==> rows[1..][i - 1] == rows[i];
      var found := RowCells(p, rows[0]);
      if found.Ok? {
        RowsFromOk(p, headers, acc + (if found.value != [] then [RowRecord(headers, found.value)] else []), rows[1..]);
      }
    }
  }

  /** When every row has cells, each row gives one record: as many records
      as rows, after the ones already collected. */
  lemma {:induction false} RowsFromEveryRow(p: Page, headers: seq<string>, acc: seq<Record>, rows: seq<Element>)
    requires forall i :: 0 <= i < |rows| ==> RowCells(p, rows[i]).Ok? && RowCells(p, rows[i]).value != []
    ensures RowsFrom(p, headers, acc, rows).Ok?
    ensures |RowsFrom(p, headers, acc, rows).value| == |acc| + |rows|
    ensures RowsFrom(p, headers, acc, rows).value[..|acc|] == acc
    decreases |rows|
  {
    if rows != [] {
      var rest := rows[1..];
      assert forall i :: 0 <= i < |rest| ==> rest[i] == rows[i + 1];
      var acc' := acc + [RowRecord(headers, RowCells(p, rows[0]).value)];
      RowsFromStep(p, headers, acc, rows);
      RowsFromEveryRow(p, headers, acc', rest);
      var r := RowsFrom(p, headers, acc', rest).value;
      assert r[..|acc'|][..|acc|] == r[..|acc|];
    }
  }

  /** ... in row order, each the record of its row's cells. */
  lemma {:induction false} RowsFromInOrder(p: Page, headers: seq<string>, acc: seq<Record>, rows: seq<Element>, i: nat)
    requires forall i :: 0 <= i < |rows| ==> RowCells(p, rows[i]).Ok? && RowCells(p, rows[i]).value != []
    requires i < |rows|
    ensures RowsFrom(p, headers, acc, rows).Ok? && |RowsFrom(p, headers, acc, rows).value| == |acc| + |rows|
    ensures RowsFrom(p, headers, acc, rows).value[|acc| + i] == RowRecord(headers, RowCells(p, rows[i]).value)
    decreases |rows|
  {
    var rest := rows[1..];
    forall j | 0 <= j < |rest| ensures RowCells(p, rest[j]).Ok? && RowCells(p, rest[j]).value != [] {
      assert rest[j] == rows[j + 1];
    }
    var acc' := acc + [RowRecord(headers, RowCells(p, rows[0]).value)];
    RowsFromStep(p, headers, acc, rows);
    if i == 0 {
      RowsFromEveryRow(p, headers, acc', rest);
      var r := RowsFrom(p, headers, acc', rest).value;
      assert r[..|acc'|] == acc';
      assert r[|acc|] == r[..|acc'|][|acc|];
    } else {
      RowsFromInOrder(p, headers, acc', rest, i - 1);
      assert rest[i - 1] == rows[i];
    }
  }

  /** `scrape_table`'s extraction: the table (its absence escapes as
      NoSuchElementException), its headers, its body and the body's rows. */
  function TableRows(p: Page, tableSel: string): Result<seq<Record>> {
    match FindElement(p, Document, Css(tableSel))
    case Err(e) => Err(e)
    case Ok(None) => Err(NoSuchElementError(Css(tableSel)))
    case Ok(Some(t)) =>
      match Headers(p, t)
      case Err(e) => Err(e)
      case Ok(hs) =>
        match TableBody(p, t)
        case Err(e) => Err(e)
        case Ok(body) =>
          match FindElements(p, Within(body), Css("tr"))
          case Err(e) => Err(e)
          case Ok(rows) => RowsFrom(p, hs, [], rows)
  }

  /** A page without a matching table fails with NoSuchElementException. */
  lemma MissingTable(p: Page, tableSel: string)
    requires p.query(Document, Css(tableSel)) == Matches([])
    ensures TableRows(p, tableSel) == Err(NoSuchElementError(Css(tableSel)))
  {
  }

  /** The inner loop of `scrape_table`: one row's record. */
  method BuildRow(headers: seq<string>, cells: seq<Element>) returns (row: Record)
    ensures row == RowRecord(headers, cells)
  {
    row := [];
    var i := 0;
    while i < |cells|
      invariant 0 <= i <= |cells|
      invariant row == RowRecord(headers, cells[..i])
    {
      assert cells[..i + 1][..i] == cells[..i];
      row := Put(row, HeaderName(headers, i), CellValue(cells[i]));
      i := i + 1;
    }
    assert cells[..|cells|] == cells;
  }

  /** One step of `RowsFrom`: the first row's cells decide. */
  lemma RowsFromStep(p: Page, headers: seq<string>, acc: seq<Record>, rows: seq<Element>)
    requires rows != []
    ensures var found := RowCells(p, rows[0]);
      RowsFrom(p, headers, acc, rows) ==
        if found.Err? then Err(found.error)
        else RowsFrom(p, headers, acc + (if found.value != [] then [RowRecord(headers, found.value)] else []), rows[1..])
  {
  }

  /** The extraction part of `scrape_table`, with its loop over rows. */
  method ExtractTable(p: Page, tableSel: string) returns (r: Result<seq<Record>>)
    ensures r == TableRows(p, tableSel)
  {
    var table := FindElement(p, Document, Css(tableSel));
    if table.Err? {
      return Err(table.error);
    }
    if table.value.None? {
      return Err(NoSuchElementError(Css(tableSel)));
    }
    var t := table.value.value;
    var headers := Headers(p, t);
    if headers.Err? {
      return Err(headers.error);
    }
    var body := TableBody(p, t);
    if body.Err? {
      return Err(body.error);
    }
    var found := FindElements(p, Within(body.value), Css("tr"));
    if found.Err? {
      return Err(found.error);
    }
    r := CollectRows(p, headers.value, found.value);
  }

  /** The loop over a table body's rows in `scrape_table`. */
  method CollectRows(p: Page, hs: seq<string>, rows: seq<Element>) returns (r: Result<seq<Record>>)
    ensures r == RowsFrom(p, hs, [], rows)
  {
    var records: seq<Record> := [];
    var i := 0;
    while i < |rows|
      invariant 0 <= i <= |rows|
      invariant RowsFrom(p, hs, records, rows[i..]) == RowsFrom(p, hs, [], rows)
    {
      RowsFromStep(p, hs, records, rows[i..]);
      assert rows[i..][0] == rows[i] && rows[i..][1..] == rows[i + 1..];
      var cells := RowCells(p, rows[i]);
      if cells.Err? {
        return Err(cells.error);
      }
      ghost var before := records;
      if cells.value != [] {
        var row := BuildRow(hs, cells.value);
        records := records + [row];
      }
      assert records == before + (if cells.value != [] then [RowRecord(hs, cells.value)] else []);
      i := i + 1;
    }
    r := Ok(records);
  }

  // ---------------------------------------------------------------------
  // Links, images and forms: one record per element that reads cleanly.

  /** The outcome of `re.findall(pattern, s, re.DOTALL | re.IGNORECASE)`:
      an invalid pattern raises; each match is one string (the whole match
      for a pattern without groups, that group's text for a pattern with
      exactly one) or the tuple of its groups. */
  datatype Match = Single(text: string) | Groups(groups: seq<string>)
  datatype FindAll = BadPattern(message: string) | MatchList(found: seq<Match>)

  /** The parts of urllib.parse and re the scraper calls, as parameters:
      `urljoin(base, url)`, the `netloc` of `urlparse(url)`, and
      `re.findall(pattern, s, ...)`. */
  datatype Libraries = Libraries(
    urljoin: (string, string) -> string,
    netloc: string -> string,
    findall: (string, string) -> FindAll)

  /** The records `shape` makes of the elements, in element order; an
      element it gives None for (its extraction raised, or it was skipped)
      adds nothing. */
  function Collect(es: seq<Element>, shape: Element -> Option<Record>): (r: seq<Record>)
    ensures |r| <= |es|
  {
    if es == [] then [] else Collect(es[..|es| - 1], shape) + Bit(shape(es[|es| - 1]))
  }

  function Bit(o: Option<Record>): seq<Record> {
    if o.Some? then [o.value] else []
  }

  /** A record is collected exactly when some element shapes into it. */
  lemma {:induction false} CollectMembers(es: seq<Element>, shape: Element -> Option<Record>, x: Record)
    ensures x in Collect(es, shape) <==> exists i :: 0 <= i < |es| && shape(es[i]) == Some(x)
  {
    if es != [] {
      var n := |es| - 1;
      var front := es[..n];
      CollectMembers(front, shape, x);
      assert forall i :: 0 <= i < n ==> front[i] == es[i];
      if shape(es[n]) == Some(x) {
        assert x in Collect(es, shape);
      }
    }
  }

  /** When no element is dropped, record i is element i's. */
  lemma {:induction false} CollectNoneDropped(es: seq<Element>, shape: Element -> Option<Record>)
    requires forall i :: 0 <= i < |es| ==> shape(es[i]).Some?
    ensures |Collect(es, shape)| == |es|
    ensures forall i :: 0 <= i < |es| ==> Collect(es, shape)[i] == shape(es[i]).value
  {
    if es != [] {
      var n := |es| - 1;
      var front := es[..n];
      assert forall i :: 0 <= i < n ==> front[i] == es[i];
      CollectNoneDropped(front, shape);
    }
  }

  /** Collecting over a concatenation concatenates. */
  lemma {:induction false} CollectAppend(a: seq<Element>, b: seq<Element>, shape: Element -> Option<Record>)
    ensures Collect(a + b, shape) == Collect(a, shape) + Collect(b, shape)
    decreases |b|
  {
    if b == [] {
      assert a + b == a;
    } else {
      var n := |b| - 1;
      assert (a + b)[..|a| + n] == a + b[..n];
      assert (a + b)[|a| + n] == b[n];
      CollectAppend(a, b[..n], shape);
      assert Collect(b, shape) == Collect(b[..n], shape) + Bit(shape(b[n]));
    }
  }

  /** Collecting one more element adds that element's record, if any. */
  lemma CollectSnoc(es: seq<Element>, i: nat, shape: Element -> Option<Record>, o: Option<Record>)
    requires i < |es| && o == shape(es[i])
    ensures Collect(es[..i + 1], shape) == Collect(es[..i], shape) + Bit(o)
  {
    assert es[..i + 1][..i] == es[..i];
  }

  /** The loop of `scrape_links` and `scrape_images`. */
  method CollectRecords(es: seq<Element>, shape: Element -> Option<Record>) returns (r: seq<Record>)
    ensures r == Collect(es, shape)
  {
    r := [];
    var i := 0;
    while i < |es|
      invariant 0 <= i <= |es|
      invariant r == Collect(es[..i], shape)
    {
      assert es[..i + 1][..i] == es[..i];
      var o := shape(es[i]);
      if o.Some? {
        r := r + [o.value];
      }
      i := i + 1;
    }
    assert es[..|es|] == es;
  }

  /** One link of `scrape_links`: its stripped text, its href made absolute
      against the page URL, and that URL's host. A link without href (or
      with an empty one) is skipped; reading a stale link raises and the
      link is skipped with a warning. */
  function LinkRecord(libs: Libraries, url: string, e: Element): (r: Option<Record>)
    ensures r.Some? <==> !e.stale && "href" in e.attributes && e.attributes["href"] != ""
    ensures r.Some? ==>
      var abs := libs.urljoin(url, e.attributes["href"]);
      r.value == [Entry("text", Str(Text.Strip(e.text))), Entry("href", Str(abs)), Entry("domain", Str(libs.netloc(abs)))]
  {
    if e.stale then None
    else match TruthyAttribute(e, "href")
      case None => None
      case Some(href) =>
        var abs := libs.urljoin(url, href);
        Some(StrRecord(["text", "href", "domain"], [Text.Strip(e.text), abs, libs.netloc(abs)]))
  }

  function LinkShape(libs: Libraries, url: string): Element -> Option<Record> {
    e => LinkRecord(libs, url, e)
  }

  /** The links `scrape_links` extracts from the page. */
  function LinksOn(libs: Libraries, p: Page, url: string, selector: string): Result<seq<Record>> {
    match FindElements(p, Document, Css(selector))
    case Err(e) => Err(e)
    case Ok(es) => Ok(Collect(es, LinkShape(libs, url)))
  }

  /** Every extracted link has an absolute href whose domain is recorded. */
  lemma LinksHaveDomains(libs: Libraries, p: Page, url: string, selector: string, x: Record)
    requires LinksOn(libs, p, url, selector).Ok? && x in LinksOn(libs, p, url, selector).value
    ensures exists e: Element, href: string :: href != "" && x == [Entry("text", Str(Text.Strip(e.text))),
      Entry("href", Str(libs.urljoin(url, href))), Entry("domain", Str(libs.netloc(libs.urljoin(url, href))))]
  {
    var es := FindElements(p, Document, Css(selector)).value;
    CollectMembers(es, LinkShape(libs, url), x);
    var i :| 0 <= i < |es| && LinkShape(libs, url)(es[i]) == Some(x);
    assert LinkRecord(libs, url, es[i]) == Some(x);
    var href := es[i].attributes["href"];
    assert href != "";
  }

  /** One image of `scrape_images`: its src made absolute, then alt, title,
      width and height, each "" when missing or empty. An image without src
      is skipped. */
  function ImageRecord(libs: Libraries, url: string, e: Element): (r: Option<Record>)
    ensures r.Some? <==> !e.stale && "src" in e.attributes && e.attributes["src"] != ""
    ensures r.Some? ==>
      Keys(r.value) == ["src", "alt", "title", "width", "height"] &&
      r.value[0].value == Str(libs.urljoin(url, e.attributes["src"])) &&
      forall i :: 1 <= i < 5 ==>
        r.value[i].value == Str(AttributeOr(e, r.value[i].key, ""))
  {
    if e.stale then None
    else match TruthyAttribute(e, "src")
      case None => None
      case Some(src) =>
        Some(StrRecord(["src", "alt", "title", "width", "height"],
          [libs.urljoin(url, src), AttributeOr(e, "alt", ""), AttributeOr(e, "title", ""),
           AttributeOr(e, "width", ""), AttributeOr(e, "height", "")]))
  }

  function ImageShape(libs: Libraries, url: string): Element -> Option<Record> {
    e => ImageRecord(libs, url, e)
  }

  /** The images `scrape_images` extracts from the page. */
  function ImagesOn(libs: Libraries, p: Page, url: string, selector: string): Result<seq<Record>> {
    match FindElements(p, Document, Css(selector))
    case Err(e) => Err(e)
    case Ok(es) => Ok(Collect(es, ImageShape(libs, url)))
  }

  /** One input of a form: type (default "text"), name, id, placeholder,
      value, and whether the `required` attribute is present at all. */
  function InputRecord(e: Element): (r: Record)
    ensures Keys(r) == ["type", "name", "id", "placeholder", "value", "required"]
    ensures r[0].value == Str(AttributeOr(e, "type", "text"))
    ensures forall i :: 1 <= i < 5 ==> r[i].value == Str(AttributeOr(e, r[i].key, ""))
    ensures r[5].value == Bool("required" in e.attributes)
  {
    var head := StrRecord(["type", "name", "id", "placeholder", "value"],
      [AttributeOr(e, "type", "text"), AttributeOr(e, "name", ""), AttributeOr(e, "id", ""),
       AttributeOr(e, "placeholder", ""), AttributeOr(e, "value", "")]);
    assert Keys(head + [Entry("required", Bool("required" in e.attributes))]) == Keys(head) + ["required"];
    head + [Entry("required", Bool("required" in e.attributes))]
  }

  const InputSelector := "input, textarea, select"

  /** The inputs' records, in order. */
  function InputRecords(inputs: seq<Element>): (vs: seq<Value>)
    ensures |vs| == |inputs| && forall i :: 0 <= i < |inputs| ==> vs[i] == Dict(InputRecord(inputs[i]))
  {
    seq(|inputs|, i requires 0 <= i < |inputs| => Dict(InputRecord(inputs[i])))
  }

  /** One form of `scrape_forms`: action, method (default "GET"), name, id,
      and the list of its inputs. Reading a stale form or input, or failing
      to look its inputs up, raises and the form is skipped. */
  function FormRecord(p: Page, f: Element): (r: Option<Record>)
    ensures r.Some? <==>
      !f.stale && FindElements(p, Within(f), Css(InputSelector)).Ok? &&
      forall i :: 0 <= i < |FindElements(p, Within(f), Css(InputSelector)).value| ==>
        !FindElements(p, Within(f), Css(InputSelector)).value[i].stale
    ensures r.Some? ==>
      Keys(r.value) == ["action", "method", "name", "id", "inputs"] &&
      r.value[0].value == Str(AttributeOr(f, "action", "")) &&
      r.value[1].value == Str(AttributeOr(f, "method", "GET")) &&
      r.value[2].value == Str(AttributeOr(f, "name", "")) &&
      r.value[3].value == Str(AttributeOr(f, "id", "")) &&
      r.value[4].value == List(InputRecords(FindElements(p, Within(f), Css(InputSelector)).value))
  {
    if f.stale then None
    else match FindElements(p, Within(f), Css(InputSelector))
      case Err(_) => None
      case Ok(inputs) =>
        if exists i :: 0 <= i < |inputs| && inputs[i].stale then None
        else
          var head := StrRecord(["action", "method", "name", "id"],
            [AttributeOr(f, "action", ""), AttributeOr(f, "method", "GET"), AttributeOr(f, "name", ""), AttributeOr(f, "id", "")]);
          var rec := head + [Entry("inputs", List(InputRecords(inputs)))];
          assert Keys(rec) == Keys(head) + ["inputs"];
          Some(rec)
  }

  function FormShape(p: Page): Element -> Option<Record> {
    f => FormRecord(p, f)
  }

  /** The forms `scrape_forms` extracts from the page. */
  function FormsOn(p: Page, selector: string): Result<seq<Record>> {
    match FindElements(p, Document, Css(selector))
    case Err(e) => Err(e)
    case Ok(es) => Ok(Collect(es, FormShape(p)))
  }

  /** A form whose elements all read cleanly is kept with every input. */
  lemma FormKeepsInputs(p: Page, f: Element)
    requires !f.stale && p.query(Within(f), Css(InputSelector)).Matches?
    requires forall i :: 0 <= i < |p.query(Within(f), Css(InputSelector)).found| ==>
      !p.query(Within(f), Css(InputSelector)).found[i].stale
    ensures FormRecord(p, f).Some?
    ensures |FormRecord(p, f).value[4].value.items| == |p.query(Within(f), Css(InputSelector)).found|
  {
  }

  /** The input loop of `scrape_forms`: the form's record, or None if
      reading it raised. */
  method ExtractForm(p: Page, f: Element) returns (r: Option<Record>)
    ensures r == FormRecord(p, f)
  {
    if f.stale {
      return None;
    }
    var head := StrRecord(["action", "method", "name", "id"],
      [AttributeOr(f, "action", ""), AttributeOr(f, "method", "GET"), AttributeOr(f, "name", ""), AttributeOr(f, "id", "")]);
    var found := FindElements(p, Within(f), Css(InputSelector));
    if found.Err? {
      return None;
    }
    var values := ReadInputs(found.value);
    if values.None? {
      return None;
    }
    r := Some(head + [Entry("inputs", List(values.value))]);
  }

  /** The loop over a form's inputs: their records, or None at the first
      stale input. */
  method ReadInputs(inputs: seq<Element>) returns (r: Option<seq<Value>>)
    ensures r.None? <==> exists i :: 0 <= i < |inputs| && inputs[i].stale
    ensures r.Some? ==> r.value == InputRecords(inputs)
  {
    var values: seq<Value> := [];
    var i := 0;
    while i < |inputs|
      invariant 0 <= i <= |inputs|
      invariant forall j :: 0 <= j < i ==> !inputs[j].stale
      invariant values == InputRecords(inputs[..i])
    {
      if inputs[i].stale {
        return None;
      }
      values := values + [Dict(InputRecord(inputs[i]))];
      i := i + 1;
    }
    assert inputs[..|inputs|] == inputs;
    r := Some(values);
  }

  /** The loop of `scrape_forms`. */
  method ExtractForms(p: Page, forms: seq<Element>) returns (r: seq<Record>)
    ensures r == Collect(forms, FormShape(p))
  {
    r := [];
    var i := 0;
    while i < |forms|
      invariant 0 <= i <= |forms|
      invariant r == Collect(forms[..i], FormShape(p))
    {
      var o := ExtractForm(p, forms[i]);
      CollectSnoc(forms, i, FormShape(p), o);
      if o.Some? {
        r := r + [o.value];
      }
      i := i + 1;
    }
    assert forms[..|forms|] == forms;
  }

  // ---------------------------------------------------------------------
  // Patterns.

  /** `f"{name}_{i}"` for the first n groups. */
  function GroupKeys(name: string, n: nat): (ks: seq<string>)
    ensures |ks| == n && forall i :: 0 <= i < n ==> ks[i] == name + "_" + Text.NatToString(i)
  {
    seq(n, i requires 0 <= i < n => name + "_" + Text.NatToString(i))
  }

  /** The group keys are pairwise distinct, so no group overwrites another. */
  lemma GroupKeysDistinct(name: string, n: nat)
    ensures forall i, j :: 0 <= i < j < n ==> GroupKeys(name, n)[i] != GroupKeys(name, n)[j]
  {
    forall i, j | 0 <= i < j < n ensures GroupKeys(name, n)[i] != GroupKeys(name, n)[j] {
      var a := Text.NatToString(i);
      var b := Text.NatToString(j);
      assert (name + "_" + a)[|name| + 1..] == a;
      assert (name + "_" + b)[|name| + 1..] == b;
      Text.NatToStringInjective(i, j);
    }
  }

  /** The record of one match: `{name_0: g0, name_1: g1, ...}` for a tuple
      of groups, `{name: match}` otherwise. */
  function MatchRecord(name: string, m: Match): Record {
    match m
    case Single(s) => [Entry(name, Str(s))]
    case Groups(gs) => StrRecord(GroupKeys(name, |gs|), gs)
  }

  /** A tuple match keys group i as `name_i`, each key once. */
  lemma MatchRecordShape(name: string, m: Match)
    ensures m.Single? ==> MatchRecord(name, m) == [Entry(name, Str(m.text))]
    ensures m.Groups? ==>
      var r := MatchRecord(name, m);
      Keys(r) == GroupKeys(name, |m.groups|) && UniqueKeys(r) &&
      forall i :: 0 <= i < |r| ==> r[i].value == Str(m.groups[i])
  {
    if m.Groups? {
      var r := MatchRecord(name, m);
      GroupKeysDistinct(name, |m.groups|);
      assert forall i :: 0 <= i < |r| ==> r[i].key == GroupKeys(name, |m.groups|)[i];
    }
  }

  /** The records of one pattern's matches, in match order. */
  function MatchRecords(name: string, ms: seq<Match>): seq<Record> {
    seq(|ms|, i requires 0 <= i < |ms| => MatchRecord(name, ms[i]))
  }

  /** The records of one named pattern; an invalid pattern gives none. */
  function PatternMatches(libs: Libraries, source: string, pattern: (string, string)): seq<Record> {
    match libs.findall(pattern.1, source)
    case BadPattern(_) => []
    case MatchList(ms) => MatchRecords(pattern.0, ms)
  }

  /** The records `f` gives for each pattern, concatenated in order. */
  function FlatMap(patterns: Selectors, f: ((string, string)) -> seq<Record>): seq<Record>
    decreases |patterns|
  {
    if patterns == [] then []
    else FlatMap(patterns[..|patterns| - 1], f) + f(patterns[|patterns| - 1])
  }

  function PatternShape(libs: Libraries, source: string): ((string, string)) -> seq<Record> {
    pattern => PatternMatches(libs, source, pattern)
  }

  /** The records of `scrape_custom_pattern`: pattern by pattern, match by
      match. */
  function PatternRecords(libs: Libraries, source: string, patterns: Selectors): seq<Record> {
    FlatMap(patterns, PatternShape(libs, source))
  }

  /** Concatenating pattern lists concatenates their records. */
  lemma {:induction false} FlatMapAppend(a: Selectors, b: Selectors, f: ((string, string)) -> seq<Record>)
    ensures FlatMap(a + b, f) == FlatMap(a, f) + FlatMap(b, f)
    decreases |b|
  {
    if b == [] {
      assert a + b == a;
    } else {
      var n := |b| - 1;
      assert (a + b)[..|a| + n] == a + b[..n];
      assert (a + b)[|a| + n] == b[n];
      FlatMapAppend(a, b[..n], f);
    }
  }

  /** An invalid pattern is skipped without disturbing the others. */
  lemma BadPatternSkipped(libs: Libraries, source: string, a: Selectors, bad: (string, string), b: Selectors)
    requires libs.findall(bad.1, source).BadPattern?
    ensures PatternRecords(libs, source, a + [bad] + b) == PatternRecords(libs, source, a) + PatternRecords(libs, source, b)
  {
    var f := PatternShape(libs, source);
    FlatMapAppend(a + [bad], b, f);
    FlatMapAppend(a, [bad], f);
    assert [bad][..0] == [];
    assert FlatMap([bad], f) == f(bad) == [];
  }

  /** Python's name for the type of a decoded JSON value. */
  function TypeName(v: Value): string {
    match v
    case Null => "NoneType"
    case Str(_) => "str"
    case Bool(_) => "bool"
    case Num(_) => "int"
    case Real(_) => "float"
    case List(_) => "list"
    case Dict(_) => "dict"
  }

  /** `patterns.items()`: the entries of a dict; any other value has no
      `items` and raises AttributeError. */
  function PatternItems(patterns: Value): (r: Result<seq<Entry>>)
    ensures patterns.Dict? <==> r.Ok?
    ensures r.Ok? ==> r.value == patterns.entries
    ensures r.Err? ==> r.error == Error(LookupError, "'" + TypeName(patterns) + "' object has no attribute 'items'")
  {
    if patterns.Dict? then Ok(patterns.entries)
    else Err(Error(LookupError, "'" + TypeName(patterns) + "' object has no attribute 'items'"))
  }

  /** The entries whose pattern is a string, as (field name, pattern). For
      any other value `re.findall` raises TypeError, which the pattern loop
      catches and logs, so such entries give no records. */
  function StringPatterns(items: seq<Entry>): (ps: Selectors)
    ensures |ps| <= |items|
    decreases |items|
  {
    if items == [] then []
    else
      var last := items[|items| - 1];
      StringPatterns(items[..|items| - 1]) + (if last.value.Str? then [(last.key, last.value.s)] else [])
  }

  /** Keeping the string patterns commutes with concatenation. */
  lemma {:induction false} StringPatternsAppend(a: seq<Entry>, b: seq<Entry>)
    ensures StringPatterns(a + b) == StringPatterns(a) + StringPatterns(b)
    decreases |b|
  {
    if b == [] {
      assert a + b == a;
    } else {
      var n := |b| - 1;
      assert (a + b)[..|a| + n] == a + b[..n];
      assert (a + b)[|a| + n] == b[n];
      StringPatternsAppend(a, b[..n]);
    }
  }

  /** A pattern that is not a string is skipped without disturbing the
      others: the records are those of the patterns around it. */
  lemma NonStringPatternSkipped(libs: Libraries, source: string, a: seq<Entry>, bad: Entry, b: seq<Entry>)
    requires !bad.value.Str?
    ensures PatternRecords(libs, source, StringPatterns(a + [bad] + b)) ==
      PatternRecords(libs, source, StringPatterns(a)) + PatternRecords(libs, source, StringPatterns(b))
  {
    StringPatternsAppend(a + [bad], b);
    StringPatternsAppend(a, [bad]);
    assert [bad][..0] == [];
    assert StringPatterns([bad]) == [];
    assert StringPatterns(a + [bad]) == StringPatterns(a);
    FlatMapAppend(StringPatterns(a), StringPatterns(b), PatternShape(libs, source));
  }

  /** A string pattern keeps its place among the others. */
  lemma StringPatternKept(a: seq<Entry>, name: string, pattern: string, b: seq<Entry>)
    ensures StringPatterns(a + [Entry(name, Str(pattern))] + b) == StringPatterns(a) + [(name, pattern)] + StringPatterns(b)
  {
    var e := Entry(name, Str(pattern));
    StringPatternsAppend(a + [e], b);
    StringPatternsAppend(a, [e]);
    assert [e][..0] == [];
  }

  /** What `scrape_custom_pattern` takes from the page source: the
      AttributeError of a `patterns` that is not a dict, or the records of
      its string patterns. */
  function PatternOutcome(libs: Libraries, source: string, patterns: Value): Result<seq<Record>> {
    match PatternItems(patterns)
    case Err(e) => Err(e)
    case Ok(items) => Ok(PatternRecords(libs, source, StringPatterns(items)))
  }

  /** One more entry adds the records of its pattern, if it is a string. */
  lemma StringPatternsStep(libs: Libraries, source: string, items: seq<Entry>, i: nat)
    requires i < |items|
    ensures PatternRecords(libs, source, StringPatterns(items[..i + 1])) ==
      PatternRecords(libs, source, StringPatterns(items[..i])) +
      (if items[i].value.Str? then PatternMatches(libs, source, (items[i].key, items[i].value.s)) else [])
  {
    assert items[..i + 1][..i] == items[..i];
    var done := StringPatterns(items[..i]);
    if items[i].value.Str? {
      var p := (items[i].key, items[i].value.s);
      var f := PatternShape(libs, source);
      assert StringPatterns(items[..i + 1]) == done + [p];
      FlatMapAppend(done, [p], f);
      assert [p][..0] == [];
      assert FlatMap([p], f) == f(p);
    } else {
      assert StringPatterns(items[..i + 1]) == done;
    }
  }

  /** The inner loop of `scrape_custom_pattern`: one record per match. */
  method AppendMatches(r0: seq<Record>, name: string, ms: seq<Match>) returns (r: seq<Record>)
    ensures r == r0 + MatchRecords(name, ms)
  {
    r := r0;
    var j := 0;
    while j < |ms|
      invariant 0 <= j <= |ms|
      invariant |r| == |r0| + j && r[..|r0|] == r0
      invariant forall k :: 0 <= k < j ==> r[|r0| + k] == MatchRecord(name, ms[k])
    {
      r := r + [MatchRecord(name, ms[j])];
      j := j + 1;
    }
  }

  /** The nested loops of `scrape_custom_pattern`. */
  method ExtractPatterns(libs: Libraries, source: string, items: seq<Entry>) returns (r: seq<Record>)
    ensures r == PatternRecords(libs, source, StringPatterns(items))
  {
    r := [];
    var i := 0;
    while i < |items|
      invariant 0 <= i <= |items|
      invariant r == PatternRecords(libs, source, StringPatterns(items[..i]))
    {
      StringPatternsStep(libs, source, items, i);
      var value := items[i].value;
      if value.Str? {
        var found := libs.findall(value.s, source);
        if found.MatchList? {
          r := AppendMatches(r, items[i].key, found.found);
        }
      }
      i := i + 1;
    }
    assert items[..|items|] == items;
  }

  // ---------------------------------------------------------------------
  // The session.

  datatype Stats = Stats(pagesVisited: nat, itemsExtracted: nat, errors: nat, startTime: real)

  /** What the scraper accumulates: its records, its counters, and the
      delays it has slept, in order. */
  datatype Session = Session(data: seq<Record>, stats: Stats, sleeps: seq<real>)

  /** The message prefix of each `scrape_*` failure. */
  function ScrapePrefix(what: string, url: string): string {
    "Failed to scrape " + what + " " + url + ": "
  }

  /** A `scrape_*` call that raised: one more error. */
  function Failed(s: Session): Session {
    s.(stats := s.stats.(errors := s.stats.errors + 1))
  }

  /** A navigation that succeeded: one more page, then `default_delay`. */
  function Visited(s: Session, delay: real): Session {
    s.(stats := s.stats.(pagesVisited := s.stats.pagesVisited + 1), sleeps := s.sleeps + [delay])
  }

  /** What `time.sleep` raises for a negative length. */
  const NegativeSleep := Error(ValueError, "sleep length must be non-negative")

  /** A navigation that succeeded followed by a negative `default_delay`:
      the page is counted, `time.sleep` raises, and the error is counted. */
  function SleepFailed(s: Session): Session {
    s.(stats := s.stats.(pagesVisited := s.stats.pagesVisited + 1, errors := s.stats.errors + 1))
  }

  /** The end of a `scrape_*` call: the items join the data and the count,
      or the failure is counted and re-raised under the call's prefix. */
  function Settled(s: Session, prefix: string, extracted: Result<seq<Record>>): (Result<seq<Record>>, Session) {
    match extracted
    case Err(e) => (Err(Wrap(Scraping, prefix, e)), Failed(s))
    case Ok(items) => (Ok(items), s.(data := s.data + items, stats := s.stats.(itemsExtracted := s.stats.itemsExtracted + |items|)))
  }

  /** One `scrape_*` call, from what navigating answered and what the
      extraction gave on the page it reached. */
  function Scrape(s: Session, delay: real, prefix: string, nav: Result<Driver>, extracted: Result<seq<Record>>)
    : (out: (Result<seq<Record>>, Session))
    ensures out.0.Err? <==> nav.Err? || delay < 0.0 || extracted.Err?
    ensures nav.Err? ==> out.0 == Err(Wrap(Scraping, prefix, nav.error))
    ensures nav.Ok? && delay < 0.0 ==> out.0 == Err(Wrap(Scraping, prefix, NegativeSleep))
    ensures nav.Ok? && delay >= 0.0 && extracted.Err? ==> out.0 == Err(Wrap(Scraping, prefix, extracted.error))
    ensures out.0.Ok? ==> out.0 == extracted
    ensures out.1.stats.errors == s.stats.errors + (if out.0.Err? then 1 else 0)
    ensures out.1.stats.pagesVisited == s.stats.pagesVisited + (if nav.Ok? then 1 else 0)
    ensures out.1.sleeps == s.sleeps + (if nav.Ok? && delay >= 0.0 then [delay] else [])
    ensures out.1.data == s.data + (if out.0.Ok? then out.0.value else [])
    ensures out.1.stats.itemsExtracted == s.stats.itemsExtracted + (if out.0.Ok? then |out.0.value| else 0)
    ensures out.1.stats.startTime == s.stats.startTime
  {
    if nav.Err? then (Err(Wrap(Scraping, prefix, nav.error)), Failed(s))
    else if delay < 0.0 then (Err(Wrap(Scraping, prefix, NegativeSleep)), SleepFailed(s))
    else Settled(Visited(s, delay), prefix, extracted)
  }

  /** The count of extracted items runs ahead of the stored data by the same
      amount before and after any `scrape_*` call. */
  lemma ScrapeKeepsTally(s: Session, delay: real, prefix: string, nav: Result<Driver>, extracted: Result<seq<Record>>)
    ensures var t := Scrape(s, delay, prefix, nav, extracted).1;
      t.stats.itemsExtracted - |t.data| == s.stats.itemsExtracted - |s.data|
  {
  }

  /** What `scrape_page` takes from the page: the items, filtered. */
  function PageOutcome(p: Page, sels: Selectors, multiple: bool): Result<seq<Record>> {
    match PageItems(p, sels, multiple)
    case Err(e) => Err(e)
    case Ok(items) => Ok(Keep(items))
  }

  /** `get_session_stats`: the counters and the duration since the start. */
  function StatsRecord(st: Stats, now: real): (r: Record)
    ensures Keys(r) == ["pages_visited", "items_extracted", "errors", "start_time", "duration"]
    ensures Get(r, "pages_visited") == Some(Num(st.pagesVisited))
    ensures Get(r, "items_extracted") == Some(Num(st.itemsExtracted))
    ensures Get(r, "errors") == Some(Num(st.errors))
    ensures Get(r, "start_time") == Some(Real(st.startTime))
    ensures Get(r, "duration") == Some(Real(now - st.startTime))
  {
    var r := [Entry("pages_visited", Num(st.pagesVisited)), Entry("items_extracted", Num(st.itemsExtracted)),
      Entry("errors", Num(st.errors)), Entry("start_time", Real(st.startTime)),
      Entry("duration", Real(now - st.startTime))];
    assert UniqueKeys(r);
    GetAt(r, 0);
    GetAt(r, 1);
    GetAt(r, 2);
    GetAt(r, 3);
    GetAt(r, 4);
    r
  }

  /** The scraped records as the exporter receives them: a list of dicts. */
  function Exported(data: seq<Record>): Value {
    List(seq(|data|, i requires 0 <= i < |data| => Dict(data[i])))
  }

  /** 2 to the power k. */
  function Pow2(k: nat): (p: real)
    ensures p >= 1.0
  {
    if k == 0 then 1.0 else 2.0 * Pow2(k - 1)
  }

  /** The wait after failed attempt k: `delay * (2 ** k)`. */
  function Backoff(delay: real, k: nat): real {
    delay * Pow2(k)
  }

  /** `retry_operation` from attempt k of `max` on: the outcome (None when
      there is no attempt at all) and the waits it sleeps. A failed attempt
      other than the last waits `delay * 2^k`; a negative wait makes
      `time.sleep` raise; the last failure is re-raised. */
  function RetryFrom<T>(op: nat -> Result<T>, max: int, delay: real, k: nat): (Result<Option<T>>, seq<real>)
    decreases max - k
  {
    if k >= max then (Ok(None), [])
    else match op(k)
      case Ok(v) => (Ok(Some(v)), [])
      case Err(e) =>
        if k < max - 1 then
          var w := Backoff(delay, k);
          if w < 0.0 then (Err(NegativeSleep), [])
          else var rest := RetryFrom(op, max, delay, k + 1); (rest.0, [w] + rest.1)
        else (Err(e), [])
  }

  /** The waits double: the j-th is `delay * 2^(k + j)`, and there are fewer
      than the attempts left. */
  lemma {:induction false} RetryWaits<T>(op: nat -> Result<T>, max: int, delay: real, k: nat)
    ensures var ws := RetryFrom(op, max, delay, k).1;
      (k < max ==> |ws| < max - k) && (k >= max ==> ws == []) &&
      forall j :: 0 <= j < |ws| ==> ws[j] == Backoff(delay, k + j)
    decreases max - k
  {
    if k < max && op(k).Err? && k < max - 1 && Backoff(delay, k) >= 0.0 {
      RetryWaits(op, max, delay, k + 1);
      var ws := RetryFrom(op, max, delay, k).1;
      var rest := RetryFrom(op, max, delay, k + 1).1;
      var e := op(k).error;
      assert op(k) == Err(e);
      var w := Backoff(delay, k);
      assert RetryFrom(op, max, delay, k) == (RetryFrom(op, max, delay, k + 1).0, [w] + rest);
      forall j | 0 < j < |ws| ensures ws[j] == Backoff(delay, k + j) {
        assert ws[j] == rest[j - 1];
      }
    }
  }

  /** A success is the first one: every attempt before it failed and slept
      once, and the value is that attempt's. */
  lemma {:induction false} RetryFirstSuccess<T>(op: nat -> Result<T>, max: int, delay: real, k: nat)
    requires RetryFrom(op, max, delay, k).0.Ok? && RetryFrom(op, max, delay, k).0.value.Some?
    ensures var (r, ws) := RetryFrom(op, max, delay, k);
      k + |ws| < max && op(k + |ws|) == Ok(r.value.value) &&
      forall j :: k <= j < k + |ws| ==> op(j).Err?
    decreases max - k
  {
    if op(k).Err? {
      RetryFirstSuccess(op, max, delay, k + 1);
    }
  }

  /** With a non-negative delay, when every attempt fails the last error is
      re-raised after `max - 1` waits. */
  lemma {:induction false} RetryAllFail<T>(op: nat -> Result<T>, max: int, delay: real, k: nat)
    requires delay >= 0.0 && k < max
    requires forall j :: k <= j < max ==> op(j).Err?
    ensures RetryFrom(op, max, delay, k).0 == Err(op(max - 1).error)
    ensures |RetryFrom(op, max, delay, k).1| == max - 1 - k
    decreases max - k
  {
    if k < max - 1 {
      assert Backoff(delay, k) >= 0.0;
      RetryAllFail(op, max, delay, k + 1);
    }
  }

  /** `max_retries or self.config.retry_attempts`: None and 0 fall back. */
  function RetryCount(maxRetries: Option<int>, config: ScrapingConfig): int {
    if maxRetries.Some? && maxRetries.value != 0 then maxRetries.value else config.retryAttempts
  }

  /** `delay or self.config.retry_delay`: None and 0.0 fall back. */
  function RetryDelay(delay: Option<real>, config: ScrapingConfig): real {
    if delay.Some? && delay.value != 0.0 then delay.value else config.retryDelay
  }

  /** When `save_data` succeeds on non-empty data: the export can be
      written, and no directory holds the summary's name. */
  predicate SaveWritable(data: Value, formatType: string, prefix: string, stamp: string, summaryStamp: string,
                         listing: seq<DirEntry>)
    requires UniqueNames(listing)
  {
    ExportWritable(data, Text.Lower(formatType), listing, GenerateFilename(prefix, formatType, true, stamp)) &&
    !IsDirectory(listing, GenerateFilename(prefix + "_summary", "json", true, summaryStamp))
  }

  class WebScraper {
    const browser: BrowserManager
    const config: ScrapingConfig
    const exporter: DataExporter
    /** `scraped_data`. */
    var data: seq<Record>
    /** `session_stats`. */
    var stats: Stats
    /** The arguments of every `time.sleep` the scraper made, in order. */
    var sleeps: seq<real>

    /** The browser and the output directory are consistent, and the item
        count covers every stored record. */
    ghost predicate Valid()
      reads this, browser, exporter.handler
    {
      browser.Valid() && exporter.handler.Valid() && |data| <= stats.itemsExtracted
    }

    function Snapshot(): Session
      reads this
    {
      Session(data, stats, sleeps)
    }

    /** `startTime` stands for `time.time()` at construction. */
    constructor (browser: BrowserManager, config: ScrapingConfig, exporter: DataExporter, startTime: real)
      requires browser.Valid() && exporter.handler.Valid()
      ensures this.browser == browser && this.config == config && this.exporter == exporter
      ensures data == [] && stats == Stats(0, 0, 0, startTime) && sleeps == []
      ensures Valid()
    {
      this.browser := browser;
      this.config := config;
      this.exporter := exporter;
      data := [];
      stats := Stats(0, 0, 0, startTime);
      sleeps := [];
    }

    /** The opening every `scrape_*` shares: navigate, then count the page
        and sleep `default_delay`; a failed navigation, or a negative delay
        that `time.sleep` rejects, is counted as an error and re-raised
        under the prefix. */
    method Begin(url: string, prefix: string) returns (r: Result<Page>)
      requires Valid()
      modifies this, browser
      ensures Valid() && browser.config == old(browser.config)
      ensures NavigateResult(old(browser.driver), url).Err? ==>
        r == Err(Wrap(Scraping, prefix, NavigateResult(old(browser.driver), url).error)) &&
        Snapshot() == Failed(old(Snapshot())) && browser.driver == old(browser.driver)
      ensures NavigateResult(old(browser.driver), url).Ok? ==>
        browser.driver == Some(NavigateResult(old(browser.driver), url).value)
      ensures NavigateResult(old(browser.driver), url).Ok? && config.defaultDelay < 0.0 ==>
        r == Err(Wrap(Scraping, prefix, NegativeSleep)) && Snapshot() == SleepFailed(old(Snapshot()))
      ensures NavigateResult(old(browser.driver), url).Ok? && config.defaultDelay >= 0.0 ==>
        r == Ok(NavigateResult(old(browser.driver), url).value.page) &&
        Snapshot() == Visited(old(Snapshot()), config.defaultDelay)
    {
      var nav := browser.NavigateTo(url);
      if nav.Err? {
        stats := stats.(errors := stats.errors + 1);
        return Err(Wrap(Scraping, prefix, nav.error));
      }
      stats := stats.(pagesVisited := stats.pagesVisited + 1);
      if config.defaultDelay < 0.0 {
        stats := stats.(errors := stats.errors + 1);
        return Err(Wrap(Scraping, prefix, NegativeSleep));
      }
      sleeps := sleeps + [config.defaultDelay];
      r := Ok(browser.driver.value.page);
    }

    /** The close every `scrape_*` shares. */
    method Settle(prefix: string, extracted: Result<seq<Record>>) returns (r: Result<seq<Record>>)
      requires Valid()
      modifies this
      ensures Valid()
      ensures (r, Snapshot()) == Settled(old(Snapshot()), prefix, extracted)
    {
      if extracted.Err? {
        stats := stats.(errors := stats.errors + 1);
        return Err(Wrap(Scraping, prefix, extracted.error));
      }
      stats := stats.(itemsExtracted := stats.itemsExtracted + |extracted.value|);
      data := data + extracted.value;
      r := extracted;
    }

    /** `scrape_page`. */
    method ScrapePage(url: string, sels: Selectors, multiple: bool) returns (r: Result<seq<Record>>)
      requires Valid()
      modifies this, browser
      ensures Valid()
      ensures var nav := NavigateResult(old(browser.driver), url);
        (r, Snapshot()) == Scrape(old(Snapshot()), config.defaultDelay, ScrapePrefix("page", url), nav,
          if nav.Ok? then PageOutcome(nav.value.page, sels, multiple) else Ok([]))
    {
      var prefix := ScrapePrefix("page", url);
      var page := Begin(url, prefix);
      if page.Err? {
        return Err(page.error);
      }
      var extracted := ExtractPage(page.value, sels, multiple);
      r := Settle(prefix, extracted);
    }

    /** `scrape_table`. */
    method ScrapeTable(url: string, tableSel: string) returns (r: Result<seq<Record>>)
      requires Valid()
      modifies this, browser
      ensures Valid()
      ensures var nav := NavigateResult(old(browser.driver), url);
        (r, Snapshot()) == Scrape(old(Snapshot()), config.defaultDelay, ScrapePrefix("table from", url), nav,
          if nav.Ok? then TableRows(nav.value.page, tableSel) else Ok([]))
    {
      var prefix := ScrapePrefix("table from", url);
      var page := Begin(url, prefix);
      if page.Err? {
        return Err(page.error);
      }
      var extracted := ExtractTable(page.value, tableSel);
      r := Settle(prefix, extracted);
    }

    /** `scrape_links`. */
    method ScrapeLinks(libs: Libraries, url: string, selector: string) returns (r: Result<seq<Record>>)
      requires Valid()
      modifies this, browser
      ensures Valid()
      ensures var nav := NavigateResult(old(browser.driver), url);
        (r, Snapshot()) == Scrape(old(Snapshot()), config.defaultDelay, ScrapePrefix("links from", url), nav,
          if nav.Ok? then LinksOn(libs, nav.value.page, url, selector) else Ok([]))
    {
      var prefix := ScrapePrefix("links from", url);
      var page := Begin(url, prefix);
      if page.Err? {
        return Err(page.error);
      }
      var found := FindElements(page.value, Document, Css(selector));
      var extracted: Result<seq<Record>>;
      if found.Err? {
        extracted := Err(found.error);
      } else {
        var links := CollectRecords(found.value, LinkShape(libs, url));
        extracted := Ok(links);
      }
      r := Settle(prefix, extracted);
    }

    /** `scrape_images`. */
    method ScrapeImages(libs: Libraries, url: string, selector: string) returns (r: Result<seq<Record>>)
      requires Valid()
      modifies this, browser
      ensures Valid()
      ensures var nav := NavigateResult(old(browser.driver), url);
        (r, Snapshot()) == Scrape(old(Snapshot()), config.defaultDelay, ScrapePrefix("images from", url), nav,
          if nav.Ok? then ImagesOn(libs, nav.value.page, url, selector) else Ok([]))
    {
      var prefix := ScrapePrefix("images from", url);
      var page := Begin(url, prefix);
      if page.Err? {
        return Err(page.error);
      }
      var found := FindElements(page.value, Document, Css(selector));
      var extracted: Result<seq<Record>>;
      if found.Err? {
        extracted := Err(found.error);
      } else {
        var images := CollectRecords(found.value, ImageShape(libs, url));
        extracted := Ok(images);
      }
      r := Settle(prefix, extracted);
    }

    /** `scrape_forms`. */
    method ScrapeForms(url: string, selector: string) returns (r: Result<seq<Record>>)
      requires Valid()
      modifies this, browser
      ensures Valid()
      ensures var nav := NavigateResult(old(browser.driver), url);
        (r, Snapshot()) == Scrape(old(Snapshot()), config.defaultDelay, ScrapePrefix("forms from", url), nav,
          if nav.Ok? then FormsOn(nav.value.page, selector) else Ok([]))
    {
      var prefix := ScrapePrefix("forms from", url);
      var page := Begin(url, prefix);
      if page.Err? {
        return Err(page.error);
      }
      var found := FindElements(page.value, Document, Css(selector));
      var extracted: Result<seq<Record>>;
      if found.Err? {
        extracted := Err(found.error);
      } else {
        var forms := ExtractForms(page.value, found.value);
        extracted := Ok(forms);
      }
      r := Settle(prefix, extracted);
    }

    /** `scrape_custom_pattern`: the patterns run over the page source. */
    method ScrapePatterns(libs: Libraries, url: string, patterns: Value) returns (r: Result<seq<Record>>)
      requires Valid()
      modifies this, browser
      ensures Valid()
      ensures var nav := NavigateResult(old(browser.driver), url);
        (r, Snapshot()) == Scrape(old(Snapshot()), config.defaultDelay, ScrapePrefix("patterns from", url), nav,
          if nav.Ok? then PatternOutcome(libs, nav.value.page.source, patterns) else Ok([]))
    {
      var prefix := ScrapePrefix("patterns from", url);
      var page := Begin(url, prefix);
      if page.Err? {
        return Err(page.error);
      }
      var source := browser.GetPageSource();
      var items := PatternItems(patterns);
      if items.Err? {
        r := Settle(prefix, Err(items.error));
        return;
      }
      var records := ExtractPatterns(libs, source.value, items.value);
      r := Settle(prefix, Ok(records));
    }

    /** `get_session_stats`; `now` stands for `time.time()`. */
    method GetSessionStats(now: real) returns (r: Record)
      ensures r == StatsRecord(stats, now)
    {
      r := StatsRecord(stats, now);
    }

    /** `save_data`: nothing to save gives ""; otherwise the records are
        exported with a timestamp (`stamp`) and without backup, then the
        summary is exported under `prefix_summary` (`summaryStamp`), and any
        failure is re-raised under "Failed to save data: ". */
    method SaveData(formatType: string, prefix: string, stamp: string, summaryStamp: string,
                    now: real, isoTime: string, dumps: Value -> string) returns (r: Result<string>)
      requires Valid()
      modifies exporter.handler
      ensures Valid()
      ensures data == [] ==> r == Ok("") && exporter.handler.listing == old(exporter.handler.listing)
      ensures r.Err? ==> r.error.kind == Scraping && Text.StartsWith(r.error.message, "Failed to save data: ")
      ensures data != [] && !KnownFormat(formatType) ==>
        r == Err(Wrap(Scraping, "Failed to save data: ", Wrap(Output, "Failed to export data: ", Error(Output, "Unsupported format: " + formatType))))
      ensures data != [] ==>
        (r.Ok? <==> SaveWritable(Exported(data), formatType, prefix, stamp, summaryStamp, old(exporter.handler.listing)))
      ensures data != [] && r.Ok? ==>
        var name := GenerateFilename(prefix, formatType, true, stamp);
        var summary := GenerateFilename(prefix + "_summary", "json", true, summaryStamp);
        r.value == exporter.handler.PathOf(name) &&
        FileAt(exporter.handler.listing, summary) == Some(JsonFile(Summary(Exported(data), StatsRecord(stats, now), isoTime))) &&
        (name != summary ==>
          FileAt(exporter.handler.listing, name) == Some(ExportedContent(Exported(data), Text.Lower(formatType), dumps)))
    {
      if data == [] {
        return Ok("");
      }
      var path := exporter.ExportData(Exported(data), formatType, prefix, true, false, stamp, "", dumps);
      if path.Err? {
        return Err(Wrap(Scraping, "Failed to save data: ", path.error));
      }
      var st := GetSessionStats(now);
      var summary := exporter.ExportSummary(Exported(data), st, prefix + "_summary", isoTime, summaryStamp);
      if summary.Err? {
        return Err(Wrap(Scraping, "Failed to save data: ", summary.error));
      }
      r := path;
    }

    /** `clear_data`: the records go, the counters stay. */
    method ClearData()
      requires Valid()
      modifies this
      ensures Valid()
      ensures data == [] && stats == old(stats) && sleeps == old(sleeps)
    {
      data := [];
    }

    /** `retry_operation`: attempt k runs `op(k)`. */
    method RetryOperation<T>(op: nat -> Result<T>, maxRetries: Option<int>, delay: Option<real>)
      returns (r: Result<Option<T>>)
      requires Valid()
      modifies this
      ensures Valid() && data == old(data) && stats == old(stats)
      ensures var out := RetryFrom(op, RetryCount(maxRetries, config), RetryDelay(delay, config), 0);
        r == out.0 && sleeps == old(sleeps) + out.1
    {
      var outcome, slept := Retry(op, RetryCount(maxRetries, config), RetryDelay(delay, config));
      sleeps := sleeps + slept;
      r := outcome;
    }
  }

  /** The attempt loop of `retry_operation`, with the waits it sleeps in
      order. */
  method Retry<T>(op: nat -> Result<T>, max: int, delay: real) returns (r: Result<Option<T>>, slept: seq<real>)
    ensures (r, slept) == RetryFrom(op, max, delay, 0)
  {
    slept := [];
    var attempt: nat := 0;
    assert slept + RetryFrom(op, max, delay, 0).1 == RetryFrom(op, max, delay, 0).1;
    while attempt < max
      invariant RetryFrom(op, max, delay, 0) == (RetryFrom(op, max, delay, attempt).0, slept + RetryFrom(op, max, delay, attempt).1)
      decreases max - attempt
    {
      var res := op(attempt);
      if res.Ok? {
        assert slept + [] == slept;
        return Ok(Some(res.value)), slept;
      }
      if attempt < max - 1 {
        var w := Backoff(delay, attempt);
        if w < 0.0 {
          assert slept + [] == slept;
          return Err(NegativeSleep), slept;
        }
        ghost var rest := RetryFrom(op, max, delay, attempt + 1);
        assert RetryFrom(op, max, delay, attempt).1 == [w] + rest.1;
        assert slept + ([w] + rest.1) == (slept + [w]) + rest.1;
        slept := slept + [w];
      } else {
        assert slept + [] == slept;
        return Err(res.error), slept;
      }
      attempt := attempt + 1;
    }
    assert slept + [] == slept;
    r := Ok(None);
  }
}
