/**
 * src/utils/file_utils.py: filenames, the shape of the XML and CSV files the
 * scraper writes, the output directory as a listing of named entries, and the
 * exporter's dispatch on the format name. The serialisers themselves (json,
 * csv, ElementTree) are represented by the structured content they are given.
 */
module FileUtils {
  import opened Exceptions
  import opened Records
  import Text

  // ---------------------------------------------------------------------
  // Filenames and path suffixes.

  /** `generate_filename`: `prefix_TS.ext` with a timestamp, else `prefix.ext`. */
  function GenerateFilename(prefix: string, extension: string, includeTimestamp: bool, timestamp: string): (name: string)
    ensures Text.StartsWith(name, prefix)
    ensures includeTimestamp ==> name[|prefix|..] == "_" + timestamp + "." + extension
    ensures !includeTimestamp ==> name[|prefix|..] == "." + extension
  {
    if includeTimestamp then prefix + "_" + timestamp + "." + extension else prefix + "." + extension
  }

  /** `str.rfind(c)`: the last position of c, or -1. */
  function RFind(s: string, c: char): (i: int)
    ensures -1 <= i < |s|
    ensures i >= 0 ==> s[i] == c && forall j :: i < j < |s| ==> s[j] != c
    ensures i == -1 ==> forall j :: 0 <= j < |s| ==> s[j] != c
  {
    if s == [] then -1 else if s[|s| - 1] == c then |s| - 1 else RFind(s[..|s| - 1], c)
  }

  /** `PurePath.suffix`: from the last dot, unless that dot starts or ends the name. */
  function Suffix(name: string): (x: string)
    ensures x == [] || (x[0] == '.' && |x| >= 2 && '.' !in x[1..])
  {
    var i := RFind(name, '.');
    if 0 < i < |name| - 1 then name[i..] else ""
  }

  /** `PurePath.stem`: the name without its suffix. */
  function Stem(name: string): (x: string)
    ensures x + Suffix(name) == name
  {
    var i := RFind(name, '.');
    if 0 < i < |name| - 1 then name[..i] else name
  }

  lemma {:induction false} RFindAfter(a: string, c: char, b: string)
    requires c !in b
    ensures RFind(a + [c] + b, c) == |a|
  {
    if b != [] {
      var s := a + [c] + b;
      assert s[..|s| - 1] == a + [c] + b[..|b| - 1];
      RFindAfter(a, c, b[..|b| - 1]);
    }
  }

  /** A generated name carries the requested extension as its suffix, so
      `list_files(extension)` finds it. */
  lemma GeneratedSuffix(prefix: string, extension: string, includeTimestamp: bool, timestamp: string)
    requires extension != [] && '.' !in extension
    requires includeTimestamp || prefix != []
    ensures Suffix(GenerateFilename(prefix, extension, includeTimestamp, timestamp)) == "." + extension
    ensures MatchesExtension(GenerateFilename(prefix, extension, includeTimestamp, timestamp), Some(extension))
  {
    var head := if includeTimestamp then prefix + "_" + timestamp else prefix;
    assert GenerateFilename(prefix, extension, includeTimestamp, timestamp) == head + ['.'] + extension;
    RFindAfter(head, '.', extension);
  }

  /** `list_files`' filter: no extension keeps every file; otherwise the
      suffix must equal `.ext`, both lowercased. */
  predicate MatchesExtension(name: string, extension: Option<string>) {
    extension.None? || Text.Lower(Suffix(name)) == "." + Text.Lower(extension.value)
  }

  /** `with_suffix(".backup_TS" + suffix)`: the backup keeps the stem and the
      original suffix, with the timestamp between them. */
  function BackupName(name: string, timestamp: string): string {
    Stem(name) + ".backup_" + timestamp + Suffix(name)
  }

  // ---------------------------------------------------------------------
  // XML shaping.

  /** An element of the tree ElementTree writes: its tag, its attributes in
      order, its text (None when unset) and its children in order. */
  datatype XmlNode = XmlNode(tag: string, attributes: seq<(string, string)>, text: Option<string>, children: seq<XmlNode>)

  /** `str(key).replace(' ', '_').replace('-', '_')`. */
  function CleanKey(k: string): (r: string)
    ensures |r| == |k|
    ensures forall i :: 0 <= i < |k| ==> r[i] == (if k[i] == ' ' || k[i] == '-' then '_' else k[i])
    ensures ' ' !in r && '-' !in r
  {
    Text.ReplaceChar(Text.ReplaceChar(k, ' ', '_'), '-', '_')
  }

  /** How many children an entry becomes: one per element of a list value,
      one otherwise. */
  function Width(v: Value): nat {
    if v.List? then |v.items| else 1
  }

  /** `_dict_to_xml(data, parent)`: the children it adds to `parent`, in order. */
  function DictToXml(entries: seq<Entry>): (nodes: seq<XmlNode>)
    decreases entries
  {
    if entries == [] then [] else EntryToXml(entries[0]) + DictToXml(entries[1..])
  }

  /** One key of `_dict_to_xml`: a dict recurses, a list gives one indexed
      child per element, anything else becomes the text of one child. */
  function EntryToXml(e: Entry): (nodes: seq<XmlNode>)
    ensures |nodes| == Width(e.value)
    ensures forall i :: 0 <= i < |nodes| ==> nodes[i].tag == CleanKey(e.key)
    ensures e.value.List? ==> forall i :: 0 <= i < |nodes| ==> nodes[i].attributes == [("index", Text.NatToString(i))]
    ensures !e.value.List? && !e.value.Dict? ==> nodes == [XmlNode(CleanKey(e.key), [], Some(PyStr(e.value)), [])]
    decreases e
  {
    var tag := CleanKey(e.key);
    match e.value
    case Dict(es) => [XmlNode(tag, [], None, DictToXml(es))]
    case List(items) => seq(|items|, i requires 0 <= i < |items| => ItemToXml(tag, i, items[i]))
    case _ => [XmlNode(tag, [], Some(PyStr(e.value)), [])]
  }

  function ItemToXml(tag: string, i: nat, item: Value): (node: XmlNode)
    ensures node.tag == tag && node.attributes == [("index", Text.NatToString(i))]
    ensures !item.Dict? ==> node.text == Some(PyStr(item)) && node.children == []
    decreases item
  {
    match item
    case Dict(es) => XmlNode(tag, [("index", Text.NatToString(i))], None, DictToXml(es))
    case _ => XmlNode(tag, [("index", Text.NatToString(i))], Some(PyStr(item)), [])
  }

  function TotalWidth(entries: seq<Entry>): nat {
    if entries == [] then 0 else Width(entries[0].value) + TotalWidth(entries[1..])
  }

  /** Every key contributes its width, so the children of `parent` number
      the sum of the widths. */
  lemma {:induction false} DictToXmlLength(entries: seq<Entry>)
    ensures |DictToXml(entries)| == TotalWidth(entries)
  {
    if entries != [] {
      DictToXmlLength(entries[1..]);
    }
  }

  /** No tag anywhere in the tree contains a space or a dash. */
  predicate CleanTags(nodes: seq<XmlNode>) {
    forall i :: 0 <= i < |nodes| ==> ' ' !in nodes[i].tag && '-' !in nodes[i].tag && CleanTags(nodes[i].children)
  }

  lemma {:induction false} CleanTagsAppend(a: seq<XmlNode>, b: seq<XmlNode>)
    requires CleanTags(a) && CleanTags(b)
    ensures CleanTags(a + b)
  {
    forall i | 0 <= i < |a + b|
      ensures ' ' !in (a + b)[i].tag && '-' !in (a + b)[i].tag && CleanTags((a + b)[i].children)
    {
      if i < |a| { assert (a + b)[i] == a[i]; } else { assert (a + b)[i] == b[i - |a|]; }
    }
  }

  /** Whatever the keys, the tree `_dict_to_xml` builds has only clean tags. */
  lemma {:induction false} DictToXmlClean(entries: seq<Entry>)
    ensures CleanTags(DictToXml(entries))
    decreases entries
  {
    if entries != [] {
      EntryToXmlClean(entries[0]);
      DictToXmlClean(entries[1..]);
      CleanTagsAppend(EntryToXml(entries[0]), DictToXml(entries[1..]));
    }
  }

  lemma {:induction false} EntryToXmlClean(e: Entry)
    ensures CleanTags(EntryToXml(e))
    decreases e
  {
    var nodes := EntryToXml(e);
    match e.value
    case Dict(es) =>
      DictToXmlClean(es);
    case List(items) =>
      forall i | 0 <= i < |nodes| ensures CleanTags(nodes[i].children) {
        if items[i].Dict? { DictToXmlClean(items[i].entries); }
      }
    case _ =>
  }

  /** A record of string values under clean keys. */
  predicate FlatStrings(r: Record) {
    forall i :: 0 <= i < |r| ==> r[i].value.Str? && ' ' !in r[i].key && '-' !in r[i].key
  }

  /** Reading a flat element back: each child's tag and text. */
  function ReadFlat(nodes: seq<XmlNode>): Record {
    if nodes == [] then []
    else [Entry(nodes[0].tag, Str(if nodes[0].text.Some? then nodes[0].text.value else ""))] + ReadFlat(nodes[1..])
  }

  /** For a record of strings under clean keys the XML children read back
      as the record itself: nothing is renamed, reordered or lost. */
  lemma {:induction false} DictToXmlReadsBack(r: Record)
    requires FlatStrings(r)
    ensures ReadFlat(DictToXml(r)) == r
  {
    if r != [] {
      var k := r[0].key;
      assert CleanKey(k) == k;
      assert FlatStrings(r[1..]) by {
        forall i | 0 <= i < |r[1..]| ensures r[1..][i].value.Str? && ' ' !in r[1..][i].key && '-' !in r[1..][i].key {
          assert r[1..][i] == r[i + 1];
        }
      }
      DictToXmlReadsBack(r[1..]);
      assert DictToXml(r) == [XmlNode(k, [], Some(r[0].value.s), [])] + DictToXml(r[1..]);
    }
  }

  /** Python's name for the type of a value, as error messages quote it. */
  function TypeName(v: Value): string {
    match v
    case Null => "NoneType"
    case Str(_) => "str"
    case Bool(_) => "bool"
    case Num(_) => "int"
    case Real(_) => "float"
    case List(_) => "list"
    case Dict(_) => "dict"
  }

  /** The AttributeError raised by calling a dict method on a non-dict. */
  function NoAttribute(v: Value, attribute: string): Error {
    Error(LookupError, "'" + TypeName(v) + "' object has no attribute '" + attribute + "'")
  }

  /** The first list element that is not a dict, if any. */
  function FirstNonDict(items: seq<Value>): (i: int)
    ensures -1 <= i < |items|
    ensures i == -1 <==> forall j :: 0 <= j < |items| ==> items[j].Dict?
    ensures i >= 0 ==> !items[i].Dict? && forall j :: 0 <= j < i ==> items[j].Dict?
  {
    if items == [] then -1
    else if !items[0].Dict? then 0
    else var k := FirstNonDict(items[1..]); if k == -1 then -1 else k + 1
  }

  /** `save_xml`'s tree: a list becomes `item` children numbered by `id`, each
      one a dict's children (any other element raises); a dict becomes the
      root's children; anything else the root's text. */
  function XmlDocument(data: Value, rootElement: string): (r: Result<XmlNode>)
    ensures data.List? ==> (r.Ok? <==> FirstNonDict(data.items) == -1)
    ensures data.List? && r.Ok? ==>
      r.value.tag == rootElement && |r.value.children| == |data.items| &&
      forall i :: 0 <= i < |data.items| ==>
        r.value.children[i] == XmlNode("item", [("id", Text.NatToString(i))], None, DictToXml(data.items[i].entries))
    ensures data.List? && r.Err? ==> r.error == NoAttribute(data.items[FirstNonDict(data.items)], "items")
    ensures data.Dict? ==> r == Ok(XmlNode(rootElement, [], None, DictToXml(data.entries)))
    ensures !data.List? && !data.Dict? ==> r == Ok(XmlNode(rootElement, [], Some(PyStr(data)), []))
  {
    match data
    case List(items) =>
      var bad := FirstNonDict(items);
      if bad >= 0 then Err(NoAttribute(items[bad], "items"))
      else Ok(XmlNode(rootElement, [], None,
        seq(|items|, i requires 0 <= i < |items| && items[i].Dict? =>
          XmlNode("item", [("id", Text.NatToString(i))], None, DictToXml(items[i].entries)))))
    case Dict(es) => Ok(XmlNode(rootElement, [], None, DictToXml(es)))
    case _ => Ok(XmlNode(rootElement, [], Some(PyStr(data)), []))
  }

  // ---------------------------------------------------------------------
  // CSV rows.

  /** `csv.DictWriter` with `extrasaction='raise'`: the keys of a row that are
      not columns. */
  function ExtraKeys(row: Record, header: seq<string>): (ks: seq<string>)
    ensures forall k :: k in ks <==> k in Keys(row) && k !in header
  {
    if row == [] then []
    else (if row[0].key in header then [] else [row[0].key]) + ExtraKeys(row[1..], header)
  }

  /** One cell: a missing key is `restval` "", None is written empty, any
      other value as its str(). */
  function Cell(row: Record, column: string): string {
    match Get(row, column)
    case None => ""
    case Some(Null) => ""
    case Some(v) => PyStr(v)
  }

  function Cells(row: Record, header: seq<string>): seq<string> {
    seq(|header|, j requires 0 <= j < |header| => Cell(row, header[j]))
  }

  /** `repr()` of each name, comma-separated. */
  function QuotedList(ks: seq<string>): string {
    Join(", ", seq(|ks|, i requires 0 <= i < |ks| => "'" + ks[i] + "'"))
  }

  /** The error `DictWriter` raises for a row, if any. */
  function RowError(row: Value, header: seq<string>): (e: Option<Error>)
    ensures e.None? <==> row.Dict? && ExtraKeys(row.entries, header) == []
  {
    if !row.Dict? then Some(NoAttribute(row, "keys"))
    else if ExtraKeys(row.entries, header) != [] then
      Some(Error(ValueError, "dict contains fields not in fieldnames: " + QuotedList(ExtraKeys(row.entries, header))))
    else None
  }

  /** `writer.writerows(data)`: the rows written before the first bad row,
      and that row's error. */
  function CsvBody(header: seq<string>, data: seq<Value>): (out: (seq<seq<string>>, Option<Error>))
    ensures |out.0| <= |data|
    ensures out.1.None? <==> forall i :: 0 <= i < |data| ==> RowError(data[i], header).None?
    ensures out.1.Some? ==> |out.0| < |data| && out.1 == RowError(data[|out.0|], header)
    ensures forall i :: 0 <= i < |out.0| ==> RowError(data[i], header).None? && out.0[i] == Cells(data[i].entries, header)
    ensures out.1.None? ==> |out.0| == |data|
  {
    if data == [] then ([], None)
    else match RowError(data[0], header)
      case Some(e) => ([], Some(e))
      case None =>
        var rest := CsvBody(header, data[1..]);
        ([Cells(data[0].entries, header)] + rest.0, rest.1)
  }

  /** Columns come from the first row, so the first row never has extra keys. */
  lemma FirstRowFits(first: Record)
    ensures ExtraKeys(first, Keys(first)) == []
  {
    NoExtraKeys(first, Keys(first));
  }

  lemma {:induction false} NoExtraKeys(row: Record, header: seq<string>)
    requires forall k :: k in Keys(row) ==> k in header
    ensures ExtraKeys(row, header) == []
  {
    if row != [] {
      assert Keys(row) == [row[0].key] + Keys(row[1..]);
      NoExtraKeys(row[1..], header);
    }
  }

  /** A list of dicts that all have the first one's keys is written whole:
      one row per dict, one cell per column, each the value's str(). */
  lemma {:induction false} UniformRowsWritten(data: seq<Value>)
    requires data != [] && forall i :: 0 <= i < |data| ==> data[i].Dict?
    requires forall i :: 0 <= i < |data| ==> Keys(data[i].entries) == Keys(data[0].entries)
    ensures var out := CsvBody(Keys(data[0].entries), data);
      out.1.None? && |out.0| == |data|
  {
    var header := Keys(data[0].entries);
    forall i | 0 <= i < |data| ensures RowError(data[i], header).None? {
      FirstRowFits(data[i].entries);
    }
  }

  // ---------------------------------------------------------------------
  // The output directory.

  /** What a written file holds: the value given to json.dump, the columns
      and rows given to the CSV writer, the XML tree, or the text. */
  datatype Content =
    | JsonFile(data: Value)
    | CsvFile(header: seq<string>, rows: seq<seq<string>>)
    | XmlFile(root: XmlNode)
    | TextFile(text: string)

  /** An entry of the output directory: a file, or a sub-directory (whose
      own contents are not tracked). */
  datatype DirEntry = File(name: string, content: Content) | Directory(name: string)

  function Find(listing: seq<DirEntry>, name: string): (i: int)
    ensures -1 <= i < |listing|
    ensures i >= 0 ==> listing[i].name == name
    ensures i == -1 <==> forall j :: 0 <= j < |listing| ==> listing[j].name != name
  {
    if listing == [] then -1
    else if listing[0].name == name then 0
    else var k := Find(listing[1..], name); if k == -1 then -1 else k + 1
  }

  predicate UniqueNames(listing: seq<DirEntry>) {
    forall i, j :: 0 <= i < j < |listing| ==> listing[i].name != listing[j].name
  }

  predicate IsDirectory(listing: seq<DirEntry>, name: string) {
    var i := Find(listing, name); i >= 0 && listing[i].Directory?
  }

  /** In a listing with distinct names, a name is a directory exactly when
      that directory entry is listed. */
  lemma IsDirectoryListed(listing: seq<DirEntry>, name: string)
    requires UniqueNames(listing)
    ensures IsDirectory(listing, name) <==> Directory(name) in listing
  {
    if Directory(name) in listing {
      var j :| 0 <= j < |listing| && listing[j] == Directory(name);
      assert Find(listing, name) == j;
    }
  }

  /** The listing after `create_backup`: an existing file is copied under
      its backup name, unless that name is a directory; anything else leaves
      the listing as it was. */
  function AfterBackup(listing: seq<DirEntry>, filename: string, timestamp: string): (l: seq<DirEntry>)
    requires UniqueNames(listing)
    ensures UniqueNames(l)
    ensures FileAt(listing, filename).Some? && !IsDirectory(listing, BackupName(filename, timestamp)) ==>
      FileAt(l, BackupName(filename, timestamp)) == FileAt(listing, filename)
    ensures forall n :: n != BackupName(filename, timestamp) ==> FileAt(l, n) == FileAt(listing, n)
    ensures forall n :: IsDirectory(l, n) <==> IsDirectory(listing, n)
  {
    match FileAt(listing, filename)
    case None => listing
    case Some(c) =>
      var b := BackupName(filename, timestamp);
      if IsDirectory(listing, b) then listing else Store(listing, b, c)
  }

  /** The content of the file called `name`, if there is one. */
  function FileAt(listing: seq<DirEntry>, name: string): (c: Option<Content>)
    requires UniqueNames(listing)
    ensures c.Some? ==> File(name, c.value) in listing
    ensures c.None? ==> forall e :: e in listing && e.name == name ==> e.Directory?
  {
    var i := Find(listing, name);
    if i >= 0 && listing[i].File? then Some(listing[i].content) else None
  }

  /** Two listings that hold the same entries under `n` read the same there. */
  lemma FileAtSame(l1: seq<DirEntry>, l2: seq<DirEntry>, n: string)
    requires UniqueNames(l1) && UniqueNames(l2)
    requires forall e: DirEntry :: e.name == n ==> (e in l1 <==> e in l2)
    ensures FileAt(l1, n) == FileAt(l2, n)
  {
    var c1, c2 := FileAt(l1, n), FileAt(l2, n);
    if c1.Some? && c2.Some? {
      var i :| 0 <= i < |l2| && l2[i] == File(n, c1.value);
      var j :| 0 <= j < |l2| && l2[j] == File(n, c2.value);
      assert i == j;
    }
  }

  /** Opening `name` for writing and writing `c`: the file is replaced where
      it stands, or added at the end. */
  function Store(listing: seq<DirEntry>, name: string, c: Content): (l: seq<DirEntry>)
    requires UniqueNames(listing) && !IsDirectory(listing, name)
    ensures UniqueNames(l)
    ensures FileAt(l, name) == Some(c)
    ensures forall n :: n != name ==> FileAt(l, n) == FileAt(listing, n)
    ensures forall e: DirEntry :: e.name != name ==> (e in l <==> e in listing)
    ensures forall n :: IsDirectory(l, n) <==> IsDirectory(listing, n)
  {
    var i := Find(listing, name);
    var l := if i >= 0 then listing[i := File(name, c)] else listing + [File(name, c)];
    assert File(name, c) in l by {
      if i >= 0 { assert l[i] == File(name, c); } else { assert l[|listing|] == File(name, c); }
    }
    assert forall e: DirEntry :: e.name != name ==> (e in l <==> e in listing) by {
      forall e: DirEntry | e.name != name ensures e in l <==> e in listing {
        if e in l { var j :| 0 <= j < |l| && l[j] == e; assert listing[j] == e; }
        if e in listing { var j :| 0 <= j < |listing| && listing[j] == e; assert l[j] == e; }
      }
    }
    forall n | n != name ensures FileAt(l, n) == FileAt(listing, n) { FileAtSame(l, listing, n); }
    forall n ensures IsDirectory(l, n) <==> IsDirectory(listing, n) {
      IsDirectoryListed(l, n);
      IsDirectoryListed(listing, n);
      if n == name {
        assert Find(l, name) >= 0 && l[Find(l, name)].File? by {
          var j :| 0 <= j < |l| && l[j] == File(name, c);
          assert Find(l, name) == j;
        }
      }
    }
    l
  }

  /** `unlink`: the entry leaves the listing. */
  function Remove(listing: seq<DirEntry>, name: string): (l: seq<DirEntry>)
    requires UniqueNames(listing)
    ensures UniqueNames(l)
    ensures Find(l, name) == -1
    ensures forall n :: n != name ==> FileAt(l, n) == FileAt(listing, n)
  {
    var i := Find(listing, name);
    if i < 0 then listing
    else
      RemoveAt(listing, i);
      var l := listing[..i] + listing[i + 1..];
      forall n | n != name ensures FileAt(l, n) == FileAt(listing, n) { FileAtSame(l, listing, n); }
      l
  }

  lemma RemoveAt(listing: seq<DirEntry>, i: nat)
    requires UniqueNames(listing) && i < |listing|
    ensures var l := listing[..i] + listing[i + 1..];
      UniqueNames(l) &&
      (forall j :: 0 <= j < |l| ==> l[j].name != listing[i].name) &&
      (forall e: DirEntry :: e.name != listing[i].name ==> (e in l <==> e in listing))
  {
    var l := listing[..i] + listing[i + 1..];
    assert forall j :: 0 <= j < |l| ==> l[j] == (if j < i then listing[j] else listing[j + 1]);
    forall e: DirEntry | e.name != listing[i].name && e in listing ensures e in l {
      var j :| 0 <= j < |listing| && listing[j] == e;
      if j < i { assert l[j] == e; } else { assert l[j - 1] == e; }
    }
  }

  /** The error of opening a directory for writing. */
  function IsADirectory(path: string): Error {
    Error(OsError, "[Errno 21] Is a directory: '" + path + "'")
  }

  /** Lexicographic order of code points, which `sorted()` uses for strings. */
  predicate LexLe(a: string, b: string)
    decreases |a|
  {
    a == [] || (b != [] && (a[0] < b[0] || (a[0] == b[0] && LexLe(a[1..], b[1..]))))
  }

  lemma {:induction false} LexTotal(a: string, b: string)
    ensures LexLe(a, b) || LexLe(b, a)
    decreases |a|
  {
    if a != [] && b != [] && a[0] == b[0] { LexTotal(a[1..], b[1..]); }
  }

  predicate Sorted(s: seq<string>) {
    forall i :: 0 < i < |s| ==> LexLe(s[i - 1], s[i])
  }

  function Insert(x: string, s: seq<string>): (r: seq<string>)
    requires Sorted(s)
    ensures Sorted(r) && multiset(r) == multiset(s) + multiset{x}
    ensures r != [] && (r[0] == x || (s != [] && r[0] == s[0]))
  {
    if s == [] then [x]
    else if LexLe(x, s[0]) then [x] + s
    else
      LexTotal(x, s[0]);
      assert s == [s[0]] + s[1..];
      var t := Insert(x, s[1..]);
      assert Sorted([s[0]] + t);
      [s[0]] + t
  }

  /** `sorted(names)`. */
  function Sort(s: seq<string>): (r: seq<string>)
    ensures Sorted(r) && multiset(r) == multiset(s)
  {
    if s == [] then [] else
      assert s == [s[0]] + s[1..];
      Insert(s[0], Sort(s[1..]))
  }

  /** The names of the files (not directories) that pass the filter, in
      listing order. */
  function MatchingNames(listing: seq<DirEntry>, extension: Option<string>): (names: seq<string>)
    ensures forall n :: n in names ==> exists i :: 0 <= i < |listing| && listing[i].File? && listing[i].name == n
  {
    if listing == [] then []
    else
      var last := listing[|listing| - 1];
      var keep := if last.File? && MatchesExtension(last.name, extension) then [last.name] else [];
      MatchingNames(listing[..|listing| - 1], extension) + keep
  }

  /** A file passes the filter exactly when it matches the extension. */
  lemma {:induction false} MatchingNamesExact(listing: seq<DirEntry>, extension: Option<string>, i: nat)
    requires i < |listing| && listing[i].File? && UniqueNames(listing)
    ensures listing[i].name in MatchingNames(listing, extension) <==> MatchesExtension(listing[i].name, extension)
  {
    var last := listing[|listing| - 1];
    if i < |listing| - 1 {
      var front := listing[..|listing| - 1];
      assert front[i] == listing[i];
      MatchingNamesExact(front, extension, i);
    }
  }

  /** The output directory and what it holds. */
  class FileHandler {
    const outputDir: string
    var listing: seq<DirEntry>

    ghost predicate Valid()
      reads this
    {
      UniqueNames(listing)
    }

    constructor (outputDir: string, listing: seq<DirEntry>)
      requires UniqueNames(listing)
      ensures this.outputDir == outputDir && this.listing == listing && Valid()
    {
      this.outputDir := outputDir;
      this.listing := listing;
    }

    /** `str(self.output_dir / filename)`. */
    function PathOf(filename: string): (p: string)
      reads this
      ensures Text.StartsWith(p, outputDir + "/") && p[|outputDir| + 1..] == filename
    {
      outputDir + "/" + filename
    }

    /** Writing one file, with the prefix of the calling `save_*`: a directory
        of that name cannot be opened, anything else is written. */
    method Write(filename: string, c: Content, prefix: string) returns (r: Result<string>)
      requires Valid()
      modifies this
      ensures Valid()
      ensures IsDirectory(old(listing), filename) ==>
        r == Err(Wrap(Output, prefix, IsADirectory(PathOf(filename)))) && listing == old(listing)
      ensures !IsDirectory(old(listing), filename) ==>
        r == Ok(PathOf(filename)) && listing == Store(old(listing), filename, c)
    {
      if IsDirectory(listing, filename) {
        return Err(Wrap(Output, prefix, IsADirectory(PathOf(filename))));
      }
      listing := Store(listing, filename, c);
      r := Ok(PathOf(filename));
    }

    /** `save_json`. */
    method SaveJson(data: Value, filename: string) returns (r: Result<string>)
      requires Valid()
      modifies this
      ensures Valid()
      ensures IsDirectory(old(listing), filename) ==>
        r == Err(Wrap(Output, "Failed to save JSON file: ", IsADirectory(PathOf(filename)))) && listing == old(listing)
      ensures !IsDirectory(old(listing), filename) ==>
        r == Ok(PathOf(filename)) && listing == Store(old(listing), filename, JsonFile(data))
    {
      r := Write(filename, JsonFile(data), "Failed to save JSON file: ");
    }

    /** `save_text`. */
    method SaveText(data: string, filename: string) returns (r: Result<string>)
      requires Valid()
      modifies this
      ensures Valid()
      ensures IsDirectory(old(listing), filename) ==>
        r == Err(Wrap(Output, "Failed to save text file: ", IsADirectory(PathOf(filename)))) && listing == old(listing)
      ensures !IsDirectory(old(listing), filename) ==>
        r == Ok(PathOf(filename)) && listing == Store(old(listing), filename, TextFile(data))
    {
      r := Write(filename, TextFile(data), "Failed to save text file: ");
    }

    /** `save_xml`: the tree is built before the file is opened, so a bad
        list element leaves the directory unchanged. */
    method SaveXml(data: Value, filename: string, rootElement: string) returns (r: Result<string>)
      requires Valid()
      modifies this
      ensures Valid()
      ensures XmlDocument(data, rootElement).Err? ==>
        r == Err(Wrap(Output, "Failed to save XML file: ", XmlDocument(data, rootElement).error)) && listing == old(listing)
      ensures XmlDocument(data, rootElement).Ok? && IsDirectory(old(listing), filename) ==>
        r.Err? && listing == old(listing)
      ensures XmlDocument(data, rootElement).Ok? && !IsDirectory(old(listing), filename) ==>
        r == Ok(PathOf(filename)) && listing == Store(old(listing), filename, XmlFile(XmlDocument(data, rootElement).value))
    {
      var tree := XmlDocument(data, rootElement);
      if tree.Err? {
        return Err(Wrap(Output, "Failed to save XML file: ", tree.error));
      }
      r := Write(filename, XmlFile(tree.value), "Failed to save XML file: ");
    }

    /** `save_csv`: empty data and a first item that is not a dict fail
        before the file is opened; a later bad row fails after the header
        and the rows before it are written. */
    method SaveCsv(data: seq<Value>, filename: string) returns (r: Result<string>)
      requires Valid()
      modifies this
      ensures Valid()
      ensures data == [] ==>
        r == Err(Error(Output, "Failed to save CSV file: No data to save")) && listing == old(listing)
      ensures data != [] && !data[0].Dict? ==>
        r == Err(Wrap(Output, "Failed to save CSV file: ", NoAttribute(data[0], "keys"))) && listing == old(listing)
      ensures data != [] && data[0].Dict? && IsDirectory(old(listing), filename) ==>
        r.Err? && listing == old(listing)
      ensures data != [] && data[0].Dict? && !IsDirectory(old(listing), filename) ==>
        var header := Keys(data[0].entries);
        var body := CsvBody(header, data);
        listing == Store(old(listing), filename, CsvFile(header, body.0)) &&
        (body.1.None? ==> r == Ok(PathOf(filename))) &&
        (body.1.Some? ==> r == Err(Wrap(Output, "Failed to save CSV file: ", body.1.value)))
    {
      if data == [] {
        return Err(Error(Output, "Failed to save CSV file: No data to save"));
      }
      if !data[0].Dict? {
        return Err(Wrap(Output, "Failed to save CSV file: ", NoAttribute(data[0], "keys")));
      }
      var header := Keys(data[0].entries);
      var body := CsvBody(header, data);
      r := Write(filename, CsvFile(header, body.0), "Failed to save CSV file: ");
      if r.Ok? && body.1.Some? {
        r := Err(Wrap(Output, "Failed to save CSV file: ", body.1.value));
      }
    }

    /** `file_exists`: a file or a directory of that name. */
    method FileExists(filename: string) returns (b: bool)
      ensures b <==> exists i :: 0 <= i < |listing| && listing[i].name == filename
    {
      b := Find(listing, filename) >= 0;
    }

    /** `create_backup`: copies an existing file next to itself under
        `BackupName`; returns "" when there is nothing to copy or the copy
        fails. A backup name that is a directory receives the copy inside it,
        which this listing does not track. */
    method CreateBackup(filename: string, timestamp: string) returns (path: string)
      requires Valid()
      modifies this
      ensures Valid()
      ensures listing == AfterBackup(old(listing), filename, timestamp)
      ensures path == if FileAt(old(listing), filename).None? then "" else PathOf(BackupName(filename, timestamp))
    {
      var original := FileAt(listing, filename);
      if original.None? {
        return "";
      }
      var b := BackupName(filename, timestamp);
      if !IsDirectory(listing, b) {
        listing := Store(listing, b, original.value);
      }
      path := PathOf(b);
    }

    /** `list_files(extension)`: the matching file names, sorted. */
    method ListFiles(extension: Option<string>) returns (names: seq<string>)
      ensures Sorted(names) && multiset(names) == multiset(MatchingNames(listing, extension))
    {
      var files: seq<string> := [];
      var i := 0;
      while i < |listing|
        invariant 0 <= i <= |listing|
        invariant files == MatchingNames(listing[..i], extension)
      {
        assert listing[..i + 1][..i] == listing[..i];
        if listing[i].File? && MatchesExtension(listing[i].name, extension) {
          files := files + [listing[i].name];
        }
        i := i + 1;
      }
      assert listing[..i] == listing;
      names := Sort(files);
    }

    /** `delete_file`: True after removing a file; False for a missing name
        and for a directory, which `unlink` refuses. */
    method DeleteFile(filename: string) returns (deleted: bool)
      requires Valid()
      modifies this
      ensures Valid()
      ensures deleted <==> FileAt(old(listing), filename).Some?
      ensures deleted ==> listing == Remove(old(listing), filename)
      ensures !deleted ==> listing == old(listing)
    {
      if FileAt(listing, filename).None? {
        return false;
      }
      listing := Remove(listing, filename);
      deleted := true;
    }
  }

  // ---------------------------------------------------------------------
  // The exporter.

  /** `export_data`'s CSV normalisation: a list as it is, a dict as a list
      of one, anything else under the key "data". */
  function CsvRows(data: Value): (rows: seq<Value>)
    ensures data.List? ==> rows == data.items
    ensures !data.List? ==> |rows| == 1 && rows[0].Dict?
    ensures data.Dict? ==> rows == [data]
    ensures !data.List? && !data.Dict? ==> Get(rows[0].entries, "data") == Some(data)
  {
    if data.List? then data.items
    else if data.Dict? then [data]
    else [Dict([Entry("data", data)])]
  }

  /** `export_summary`'s sample: the first five items of a longer list, else
      the data itself. */
  function Sample(data: Value): (s: Value)
    ensures data.List? && |data.items| > 5 ==> s == List(data.items[..5])
    ensures !(data.List? && |data.items| > 5) ==> s == data
  {
    if data.List? && |data.items| > 5 then List(data.items[..5]) else data
  }

  /** `export_summary`'s document. */
  function Summary(data: Value, stats: Record, isoTime: string): (v: Value)
    ensures v.Dict? && Keys(v.entries) == ["timestamp", "statistics", "sample_data"]
    ensures Get(v.entries, "sample_data") == Some(Sample(data))
    ensures Get(v.entries, "statistics") == Some(Dict(stats))
  {
    var entries := [Entry("timestamp", Str(isoTime)), Entry("statistics", Dict(stats)), Entry("sample_data", Sample(data))];
    assert UniqueKeys(entries);
    GetAt(entries, 1);
    GetAt(entries, 2);
    Dict(entries)
  }

  /** The formats `export_data` knows, compared lowercased. */
  predicate KnownFormat(formatType: string) {
    var f := Text.Lower(formatType); f == "json" || f == "csv" || f == "xml" || f == "txt"
  }

  /** When writing `data` in the (lowercased) format under `name` succeeds:
      no directory is in the way, the format is known, the CSV rows start
      with a dict and every row fits its header, and the XML tree can be
      built. */
  predicate ExportWritable(data: Value, format: string, listing: seq<DirEntry>, name: string)
    requires UniqueNames(listing)
  {
    !IsDirectory(listing, name) &&
    (format == "json" || format == "txt" ||
     (format == "csv" &&
      var rows := CsvRows(data); rows != [] && rows[0].Dict? && CsvBody(Keys(rows[0].entries), rows).1.None?) ||
     (format == "xml" && XmlDocument(data, "data").Ok?))
  }

  class DataExporter {
    const handler: FileHandler

    constructor (handler: FileHandler)
      ensures this.handler == handler
    {
      this.handler := handler;
    }

    /** `export_data`. The filename takes the format as given, the backup (if
        asked for and the file exists) is made first, and every failure comes
        back under "Failed to export data: ". `dumps` stands for
        `json.dumps(data, indent=2)`. */
    method ExportData(data: Value, formatType: string, prefix: string, includeTimestamp: bool,
                      createBackup: bool, stamp: string, backupStamp: string,
                      dumps: Value -> string) returns (r: Result<string>)
      requires handler.Valid()
      modifies handler
      ensures handler.Valid()
      ensures r.Err? ==> r.error.kind == Output && Text.StartsWith(r.error.message, "Failed to export data: ")
      ensures !KnownFormat(formatType) ==>
        r == Err(Wrap(Output, "Failed to export data: ", Error(Output, "Unsupported format: " + formatType)))
      ensures r.Ok? ==>
        var name := GenerateFilename(prefix, formatType, includeTimestamp, stamp);
        r.value == handler.PathOf(name) &&
        FileAt(handler.listing, name) == Some(ExportedContent(data, Text.Lower(formatType), dumps))
      ensures r.Ok? <==>
        ExportWritable(data, Text.Lower(formatType), old(handler.listing), GenerateFilename(prefix, formatType, includeTimestamp, stamp))
      ensures forall n :: IsDirectory(handler.listing, n) <==> IsDirectory(old(handler.listing), n)
      ensures var name := GenerateFilename(prefix, formatType, includeTimestamp, stamp);
        forall n :: n != name && (createBackup ==> n != BackupName(name, backupStamp)) ==>
          FileAt(handler.listing, n) == FileAt(old(handler.listing), n)
      ensures var name := GenerateFilename(prefix, formatType, includeTimestamp, stamp);
        var backup := BackupName(name, backupStamp);
        createBackup ==>
          FileAt(handler.listing, backup) == FileAt(AfterBackup(old(handler.listing), name, backupStamp), backup)
    {
      var filename := GenerateFilename(prefix, formatType, includeTimestamp, stamp);
      BackUpFirst(createBackup, filename, backupStamp);
      assert |BackupName(filename, backupStamp)| > |filename| by {
        assert Stem(filename) + Suffix(filename) == filename;
      }
      r := Save(data, formatType, filename, dumps);
      if r.Err? {
        r := Err(Wrap(Output, "Failed to export data: ", r.error));
      }
    }

    /** The backup step of `export_data`: only when asked for and the name
        exists. */
    method BackUpFirst(createBackup: bool, filename: string, backupStamp: string)
      requires handler.Valid()
      modifies handler
      ensures handler.Valid()
      ensures handler.listing == if createBackup then AfterBackup(old(handler.listing), filename, backupStamp) else old(handler.listing)
    {
      var present := handler.FileExists(filename);
      if createBackup && present {
        var _ := handler.CreateBackup(filename, backupStamp);
      } else if createBackup {
        assert FileAt(handler.listing, filename).None?;
      }
    }

    /** The format dispatch of `export_data`, before its errors are wrapped. */
    method Save(data: Value, formatType: string, filename: string, dumps: Value -> string) returns (r: Result<string>)
      requires handler.Valid()
      modifies handler
      ensures handler.Valid()
      ensures !KnownFormat(formatType) ==> r == Err(Error(Output, "Unsupported format: " + formatType))
      ensures r.Ok? ==>
        r.value == handler.PathOf(filename) &&
        FileAt(handler.listing, filename) == Some(ExportedContent(data, Text.Lower(formatType), dumps))
      ensures r.Ok? <==> ExportWritable(data, Text.Lower(formatType), old(handler.listing), filename)
      ensures forall n :: n != filename ==> FileAt(handler.listing, n) == FileAt(old(handler.listing), n)
      ensures forall n :: IsDirectory(handler.listing, n) <==> IsDirectory(old(handler.listing), n)
    {
      var f := Text.Lower(formatType);
      if f == "json" {
        r := handler.SaveJson(data, filename);
      } else if f == "csv" {
        r := handler.SaveCsv(CsvRows(data), filename);
      } else if f == "xml" {
        r := handler.SaveXml(data, filename, "data");
      } else if f == "txt" {
        r := handler.SaveText(if data.Str? then data.s else dumps(data), filename);
      } else {
        r := Err(Error(Output, "Unsupported format: " + formatType));
      }
    }

    /** `export_summary`: the summary goes to `prefix_TS.json`. */
    method ExportSummary(data: Value, stats: Record, prefix: string, isoTime: string, stamp: string)
      returns (r: Result<string>)
      requires handler.Valid()
      modifies handler
      ensures handler.Valid()
      ensures r.Err? ==> r.error.kind == Output && Text.StartsWith(r.error.message, "Failed to export summary: ")
      ensures r.Ok? ==>
        var name := GenerateFilename(prefix, "json", true, stamp);
        r.value == handler.PathOf(name) &&
        FileAt(handler.listing, name) == Some(JsonFile(Summary(data, stats, isoTime)))
      ensures r.Ok? <==> !IsDirectory(old(handler.listing), GenerateFilename(prefix, "json", true, stamp))
      ensures forall n :: IsDirectory(handler.listing, n) <==> IsDirectory(old(handler.listing), n)
      ensures forall n :: n != GenerateFilename(prefix, "json", true, stamp) ==>
        FileAt(handler.listing, n) == FileAt(old(handler.listing), n)
    {
      var filename := GenerateFilename(prefix, "json", true, stamp);
      var saved := handler.SaveJson(Summary(data, stats, isoTime), filename);
      r := if saved.Ok? then saved else Err(Wrap(Output, "Failed to export summary: ", saved.error));
    }
  }

  /** What a successful export leaves in the file, by lowercased format. */
  function ExportedContent(data: Value, format: string, dumps: Value -> string): Content {
    if format == "json" then JsonFile(data)
    else if format == "csv" then
      (var rows := CsvRows(data);
       if rows != [] && rows[0].Dict? then CsvFile(Keys(rows[0].entries), CsvBody(Keys(rows[0].entries), rows).0)
       else CsvFile([], []))
    else if format == "xml" then
      (if XmlDocument(data, "data").Ok? then XmlFile(XmlDocument(data, "data").value) else TextFile(""))
    else TextFile(if data.Str? then data.s else dumps(data))
  }
}
