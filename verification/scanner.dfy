/**
 * The markdown tree scanner of `src/utils.ts`: a depth-first walk over a
 * directory tree that turns every markdown note into a `Post` record.
 *
 * The file system is an in-memory tree (`Entry`), and `JSON.parse` of the
 * metadata line, together with the property reads on its result, is an
 * abstract `Parser` handed in by the caller.
 */
module Scanner {
  import opened Wrappers
  import opened Text

  /** What `fs.statSync` finds at a path: a directory with its listing in
    * `readdirSync` order, a regular file with its UTF-8 text, or anything else. */
  datatype Entry =
    | Dir(name: string, children: seq<Entry>)
    | File(name: string, text: string)
    | Other(name: string)

  /** The front matter on a note's second line; `None` is a field the JSON
    * leaves out or sets to `null`. */
  datatype Metadata = Metadata(
    title: Option<string>,
    permalink: Option<string>,
    created: Option<string>,
    updated: Option<string>,
    tags: Option<seq<string>>)

  /** One published note. `tags` is declared by the record type but never set. */
  datatype Post = Post(
    title: string,
    content: string,
    link: Option<string>,
    created: Option<string>,
    updated: Option<string>,
    tags: Option<string>)

  /** `JSON.parse` of one line read as metadata; `Err` carries the thrown message. */
  type Parser = string -> Result<Metadata, string>

  datatype ScanError =
    | MetadataParseError(message: string)  // thrown by JSON.parse, aborts the scan
    | NotADirectory(path: string)          // thrown by readdirSync on the root

  /** One call of `walkDir`'s callback: the full path and what is there. */
  datatype Visit = Visit(path: string, entry: Entry)

  /** `path.join(directory, entry)`, without normalisation. */
  function PathJoin(directory: string, name: string): string {
    directory + "/" + name
  }

  // ---------------------------------------------------------------------
  // walkDir: which callbacks happen, and in what order
  // ---------------------------------------------------------------------

  /** The callbacks caused by one listing entry: a directory is walked, anything else is visited. */
  function EntryVisits(directory: string, e: Entry): seq<Visit>
    decreases e, 0
  {
    var fullPath := PathJoin(directory, e.name);
    if e.Dir? then Visits(fullPath, e.children) else [Visit(fullPath, e)]
  }

  /** The callbacks of `walkDir(directory, …)` over `listing`, in order. */
  function Visits(directory: string, listing: seq<Entry>): seq<Visit>
    decreases listing, 1
  {
    if listing == [] then []
    else EntryVisits(directory, listing[0]) + Visits(directory, listing[1..])
  }

  /** `v` names an entry somewhere in the tree under `directory`, at its full path. */
  ghost predicate InTree(directory: string, listing: seq<Entry>, v: Visit)
    decreases listing
  {
    exists i :: 0 <= i < |listing| && InEntry(directory, listing[i], v)
  }

  ghost predicate InEntry(directory: string, e: Entry, v: Visit)
    decreases e
  {
    var fullPath := PathJoin(directory, e.name);
    v == Visit(fullPath, e) || (e.Dir? && InTree(fullPath, e.children, v))
  }

  /** The number of entries in the tree that are not directories. */
  function LeafCount(listing: seq<Entry>): nat
    decreases listing
  {
    if listing == [] then 0
    else
      (match listing[0]
       case Dir(_, children) => LeafCount(children)
       case _ => 1)
      + LeafCount(listing[1..])
  }

  /** The walk follows the listing: walking `a + b` walks `a`, then `b`. */
  lemma {:induction false} VisitsAppend(directory: string, a: seq<Entry>, b: seq<Entry>)
    ensures Visits(directory, a + b) == Visits(directory, a) + Visits(directory, b)
    decreases |a|
  {
    if a == [] {
      assert a + b == b;
    } else {
      VisitsAppend(directory, a[1..], b);
      assert (a + b)[0] == a[0];
      assert (a + b)[1..] == a[1..] + b;
      calc {
        Visits(directory, a + b);
        EntryVisits(directory, a[0]) + Visits(directory, a[1..] + b);
        EntryVisits(directory, a[0]) + (Visits(directory, a[1..]) + Visits(directory, b));
        Visits(directory, a) + Visits(directory, b);
      }
    }
  }

  /** The callback receives exactly the non-directory entries of the tree, at their full paths. */
  lemma {:induction false} VisitsAreTheLeaves(directory: string, listing: seq<Entry>, v: Visit)
    ensures v in Visits(directory, listing) <==> InTree(directory, listing, v) && !v.entry.Dir?
    decreases listing
  {
    if listing != [] {
      var e := listing[0];
      VisitsAreTheLeaves(directory, listing[1..], v);
      EntryVisitsAreTheLeaves(directory, e, v);
      assert InTree(directory, listing, v) <==>
             InEntry(directory, e, v) || InTree(directory, listing[1..], v) by {
        if InTree(directory, listing, v) {
          var i :| 0 <= i < |listing| && InEntry(directory, listing[i], v);
          if i > 0 { assert listing[1..][i - 1] == listing[i]; }
        }
        if InTree(directory, listing[1..], v) {
          var i :| 0 <= i < |listing[1..]| && InEntry(directory, listing[1..][i], v);
          assert listing[i + 1] == listing[1..][i];
        }
      }
    }
  }

  lemma {:induction false} EntryVisitsAreTheLeaves(directory: string, e: Entry, v: Visit)
    ensures v in EntryVisits(directory, e) <==> InEntry(directory, e, v) && !v.entry.Dir?
    decreases e
  {
    if e.Dir? {
      VisitsAreTheLeaves(PathJoin(directory, e.name), e.children, v);
    }
  }

  /** One callback per non-directory entry, and none for directories. */
  lemma {:induction false} VisitCount(directory: string, listing: seq<Entry>)
    ensures |Visits(directory, listing)| == LeafCount(listing)
    decreases listing
  {
    if listing != [] {
      VisitCount(directory, listing[1..]);
      if listing[0].Dir? {
        VisitCount(PathJoin(directory, listing[0].name), listing[0].children);
      }
    }
  }

  // ---------------------------------------------------------------------
  // getMarkdownMetaData: one path to at most one record
  // ---------------------------------------------------------------------

  /** `path.extname(name) === '.md'` for a listing entry name: it ends in ".md"
    * after at least one character (a leading dot starts no extension). Case-sensitive. */
  predicate IsMarkdownName(name: string) {
    |name| > 3 && name[|name| - 3..] == ".md"
  }

  /** `path.basename(filePath, '.md')` for a markdown entry. */
  function Stem(name: string): (stem: string)
    requires IsMarkdownName(name)
    ensures stem + ".md" == name
  {
    name[..|name| - 3]
  }

  /** The file is one the scanner reads: a regular `.md` file holding a newline. */
  predicate Qualifies(e: Entry) {
    e.File? && IsMarkdownName(e.name) && '\n' in e.text
  }

  /** The metadata line of a text that holds a newline: line index 1 of its split. */
  function MetadataLine(text: string): string
    requires '\n' in text
  {
    SplitHasTwoLines(text);
    Split(text)[1]
  }

  /** The record built from metadata `m` for a note named `name` with lines `lines`:
    * `lines.slice(3).join('\n')` is the content. */
  function MakePost(m: Metadata, name: string, lines: seq<string>): (p: Post)
    requires IsMarkdownName(name)
    ensures p.tags.None?
    ensures p.link == m.permalink && p.created == m.created && p.updated == m.updated
    ensures m.title.Some? ==> p.title == m.title.value
    ensures m.title.None? ==> p.title + ".md" == name
    ensures |lines| >= 3 ==> p.content == Join(lines[3..])
    ensures |lines| <= 3 ==> p.content == ""
  {
    Post(
      title := m.title.GetOr(Stem(name)),
      content := if |lines| >= 3 then Join(lines[3..]) else "",
      link := m.permalink,
      created := m.created,
      updated := m.updated,
      tags := None)
  }

  /** `getMarkdownMetaData(filePath)`: `Ok(None)` for a path that yields no record,
    * `Err` when the metadata line does not parse. */
  function GetMarkdownMetaData(v: Visit, parse: Parser): (r: Result<Option<Post>, ScanError>)
    ensures !Qualifies(v.entry) ==> r == Ok(None)
    ensures Qualifies(v.entry) ==> (r.Err? <==> parse(MetadataLine(v.entry.text)).Err?)
    ensures r.Ok? && r.value.Some? <==> Qualifies(v.entry) && parse(MetadataLine(v.entry.text)).Ok?
    ensures r.Ok? && r.value.Some? ==> r.value.value.tags.None?
    ensures Qualifies(v.entry) && parse(MetadataLine(v.entry.text)).Err? ==>
              r == Err(MetadataParseError(parse(MetadataLine(v.entry.text)).error))
    ensures Qualifies(v.entry) && parse(MetadataLine(v.entry.text)).Ok? ==>
              r == Ok(Some(MakePost(parse(MetadataLine(v.entry.text)).value, v.entry.name, Split(v.entry.text))))
  {
    match v.entry
    case File(name, text) =>
      if IsMarkdownName(name) then
        var lines := Split(text);
        SplitHasTwoLines(text);
        if |lines| >= 2 then
          match parse(lines[1])
          case Err(message) => Err(MetadataParseError(message))
          case Ok(m) => Ok(Some(MakePost(m, name, lines)))
        else Ok(None)
      else Ok(None)
    case _ => Ok(None)
  }

  /** Content round-trip: of `h0 \n h1 \n h2 \n rest`, line `h1` is the metadata,
    * and the record's content is exactly `rest`. */
  lemma ContentRoundTrip(path: string, name: string, h0: string, h1: string, h2: string, rest: string,
                         parse: Parser)
    requires IsMarkdownName(name)
    requires '\n' !in h0 && '\n' !in h1 && '\n' !in h2
    requires parse(h1).Ok?
    ensures GetMarkdownMetaData(Visit(path, File(name, h0 + "\n" + h1 + "\n" + h2 + "\n" + rest)), parse)
            == Ok(Some(MakePost(parse(h1).value, name, [h0, h1, h2] + Split(rest))))
    ensures MakePost(parse(h1).value, name, [h0, h1, h2] + Split(rest)).content == rest
  {
    var lines := [h0, h1, h2] + Split(rest);
    SplitHeader(h0, h1, h2, rest);
    assert lines[1] == h1;
    assert lines[3..] == Split(rest);
    JoinSplit(rest);
  }

  /** Three newline-free header lines split off one by one. */
  lemma SplitHeader(h0: string, h1: string, h2: string, rest: string)
    requires '\n' !in h0 && '\n' !in h1 && '\n' !in h2
    ensures Split(h0 + "\n" + h1 + "\n" + h2 + "\n" + rest) == [h0, h1, h2] + Split(rest)
  {
    var t2 := h2 + "\n" + rest;
    var t1 := h1 + "\n" + t2;
    assert h0 + "\n" + h1 + "\n" + h2 + "\n" + rest == h0 + "\n" + t1;
    SplitLine(h2, rest);
    SplitLine(h1, t2);
    SplitLine(h0, t1);
  }

  /** A note of exactly two lines has empty content. */
  lemma TwoLineNote(path: string, name: string, h0: string, h1: string, parse: Parser)
    requires IsMarkdownName(name)
    requires '\n' !in h0 && '\n' !in h1
    requires parse(h1).Ok?
    ensures GetMarkdownMetaData(Visit(path, File(name, h0 + "\n" + h1)), parse)
            == Ok(Some(MakePost(parse(h1).value, name, [h0, h1])))
    ensures MakePost(parse(h1).value, name, [h0, h1]).content == ""
  {
    SplitLine(h0, h1);
    SplitNoNewline(h1);
  }

  /** A note of exactly three lines has empty content. */
  lemma ThreeLineNote(path: string, name: string, h0: string, h1: string, h2: string, parse: Parser)
    requires IsMarkdownName(name)
    requires '\n' !in h0 && '\n' !in h1 && '\n' !in h2
    requires parse(h1).Ok?
    ensures GetMarkdownMetaData(Visit(path, File(name, h0 + "\n" + h1 + "\n" + h2)), parse)
            == Ok(Some(MakePost(parse(h1).value, name, [h0, h1, h2])))
    ensures MakePost(parse(h1).value, name, [h0, h1, h2]).content == ""
  {
    SplitLine(h1, h2);
    SplitNoNewline(h2);
    assert h0 + "\n" + h1 + "\n" + h2 == h0 + "\n" + (h1 + "\n" + h2);
    SplitLine(h0, h1 + "\n" + h2);
  }

  /** The extension test is case-sensitive: a `.MD` note yields no record, whatever it holds. */
  lemma ExtensionIsCaseSensitive(path: string, stem: string, text: string, parse: Parser)
    ensures GetMarkdownMetaData(Visit(path, File(stem + ".MD", text)), parse) == Ok(None)
  {
    var name := stem + ".MD";
    assert name[|name| - 3..] == ".MD";
  }

  /** A second line that does not parse makes the file fail, whatever follows it:
    * nothing (a two-line note) or a newline and further lines. */
  lemma BadMetadataFails(path: string, name: string, h0: string, h1: string, tail: string, parse: Parser)
    requires IsMarkdownName(name)
    requires '\n' !in h0 && '\n' !in h1
    requires tail == "" || tail[0] == '\n'
    requires parse(h1).Err?
    ensures GetMarkdownMetaData(Visit(path, File(name, h0 + "\n" + h1 + tail)), parse)
            == Err(MetadataParseError(parse(h1).error))
  {
    if tail == "" {
      assert h0 + "\n" + h1 + tail == h0 + "\n" + h1;
      SplitLine(h0, h1);
      SplitNoNewline(h1);
    } else {
      var rest := tail[1..];
      assert tail == "\n" + rest;
      SplitLine(h1, rest);
      assert h0 + "\n" + h1 + tail == h0 + "\n" + (h1 + "\n" + rest);
      SplitLine(h0, h1 + "\n" + rest);
    }
  }

  // ---------------------------------------------------------------------
  // getMarkdownTreeMetadata: the records of the whole walk
  // ---------------------------------------------------------------------

  /** The records pushed for one callback result. */
  function Pushed(md: Option<Post>): seq<Post> {
    if md.Some? then [md.value] else []
  }

  /** Run the callback over `visits` in order, stopping at the first failure. */
  function Collect(visits: seq<Visit>, parse: Parser): (r: Result<seq<Post>, ScanError>)
    ensures r.Ok? ==> |r.value| <= |visits|
    ensures r.Err? ==> r.error.MetadataParseError?
    ensures r.Ok? ==> forall k :: 0 <= k < |r.value| ==> r.value[k].tags.None?
    decreases |visits|
  {
    if visits == [] then Ok([])
    else
      match GetMarkdownMetaData(visits[0], parse)
      case Err(e) => Err(e)
      case Ok(md) =>
        match Collect(visits[1..], parse)
        case Err(e) => Err(e)
        case Ok(rest) => Ok(Pushed(md) + rest)
  }

  /** Sequencing of two scans: the first failure wins, otherwise the records concatenate. */
  function AndThen(first: Result<seq<Post>, ScanError>, second: Result<seq<Post>, ScanError>)
    : Result<seq<Post>, ScanError>
  {
    match first
    case Err(e) => Err(e)
    case Ok(a) =>
      match second
      case Err(e) => Err(e)
      case Ok(b) => Ok(a + b)
  }

  /** Collecting over `a + b` is collecting over `a`, then over `b`. */
  lemma {:induction false} CollectAppend(a: seq<Visit>, b: seq<Visit>, parse: Parser)
    ensures Collect(a + b, parse) == AndThen(Collect(a, parse), Collect(b, parse))
    decreases |a|
  {
    if a == [] {
      assert a + b == b;
      if Collect(b, parse).Ok? {
        assert [] + Collect(b, parse).value == Collect(b, parse).value;
      }
    } else {
      CollectAppend(a[1..], b, parse);
      assert (a + b)[0] == a[0];
      assert (a + b)[1..] == a[1..] + b;
      match GetMarkdownMetaData(a[0], parse)
      case Err(e) =>
      case Ok(md) =>
        match Collect(a[1..], parse)
        case Err(e) =>
        case Ok(rest) =>
          if Collect(b, parse).Ok? {
            assert Pushed(md) + rest + Collect(b, parse).value
                == Pushed(md) + (rest + Collect(b, parse).value);
          }
    }
  }

  /** The whole scan: `getMarkdownTreeMetadata(absolutePath)` over the tree `root`. */
  function TreeMetadata(absolutePath: string, root: Entry, parse: Parser): (r: Result<seq<Post>, ScanError>)
    ensures !root.Dir? ==> r == Err(NotADirectory(absolutePath))
    ensures r.Err? && r.error.NotADirectory? ==> !root.Dir?
  {
    match root
    case Dir(_, children) => Collect(Visits(absolutePath, children), parse)
    case _ => Err(NotADirectory(absolutePath))
  }

  /** The number of files in the tree that yield a record. */
  function QualifyingCount(listing: seq<Entry>): nat
    decreases listing
  {
    if listing == [] then 0
    else
      (match listing[0]
       case Dir(_, children) => QualifyingCount(children)
       case e => if Qualifies(e) then 1 else 0)
      + QualifyingCount(listing[1..])
  }

  /** Some note in the tree has a second line that does not parse. */
  ghost predicate HasBadMetadata(listing: seq<Entry>, parse: Parser)
    decreases listing
  {
    exists i :: 0 <= i < |listing| && BadEntry(listing[i], parse)
  }

  ghost predicate BadEntry(e: Entry, parse: Parser)
    decreases e
  {
    match e
    case Dir(_, children) => HasBadMetadata(children, parse)
    case File(name, text) => IsMarkdownName(name) && '\n' in text && parse(MetadataLine(text)).Err?
    case Other(_) => false
  }

  /** Fail-fast: the scan fails exactly when some note's metadata line does not parse,
    * and then it returns no records at all; otherwise it returns one record per
    * qualifying note. */
  lemma {:induction false} ScanOutcome(directory: string, listing: seq<Entry>, parse: Parser)
    ensures Collect(Visits(directory, listing), parse).Err? <==> HasBadMetadata(listing, parse)
    ensures Collect(Visits(directory, listing), parse).Ok? ==>
            |Collect(Visits(directory, listing), parse).value| == QualifyingCount(listing)
    decreases listing
  {
    if listing != [] {
      var e := listing[0];
      ScanOutcome(directory, listing[1..], parse);
      CollectAppend(EntryVisits(directory, e), Visits(directory, listing[1..]), parse);
      HasBadMetadataCons(listing, parse);
      if e.Dir? {
        ScanOutcome(PathJoin(directory, e.name), e.children, parse);
      } else {
        LeafOutcome(directory, e, parse);
      }
    }
  }

  /** A listing has a bad note exactly when its first entry does or the rest does. */
  lemma HasBadMetadataCons(listing: seq<Entry>, parse: Parser)
    requires listing != []
    ensures HasBadMetadata(listing, parse) <==>
            BadEntry(listing[0], parse) || HasBadMetadata(listing[1..], parse)
  {
    if HasBadMetadata(listing, parse) {
      var i :| 0 <= i < |listing| && BadEntry(listing[i], parse);
      if i > 0 { assert listing[1..][i - 1] == listing[i]; }
    }
    if HasBadMetadata(listing[1..], parse) {
      var i :| 0 <= i < |listing[1..]| && BadEntry(listing[1..][i], parse);
      assert listing[i + 1] == listing[1..][i];
    }
  }

  /** The scan of one entry that is not a directory: it fails exactly when the entry is a bad
    * note, and otherwise gives one record for a qualifying file and none for anything else. */
  lemma LeafOutcome(directory: string, e: Entry, parse: Parser)
    requires !e.Dir?
    ensures Collect(EntryVisits(directory, e), parse).Err? <==> BadEntry(e, parse)
    ensures Collect(EntryVisits(directory, e), parse).Ok? ==>
            |Collect(EntryVisits(directory, e), parse).value| == (if Qualifies(e) then 1 else 0)
  {
    var v := Visit(PathJoin(directory, e.name), e);
    assert EntryVisits(directory, e) == [v];
    CollectSingle(v, parse);
  }

  /** The scan follows the listing order of the root: scanning a root whose listing is
    * `a + b` scans `a`, then `b`, and the first failure in that order is the one reported. */
  lemma ScanFollowsListing(absolutePath: string, name: string, a: seq<Entry>, b: seq<Entry>, parse: Parser)
    ensures TreeMetadata(absolutePath, Dir(name, a + b), parse)
            == AndThen(TreeMetadata(absolutePath, Dir(name, a), parse),
                       TreeMetadata(absolutePath, Dir(name, b), parse))
  {
    VisitsAppend(absolutePath, a, b);
    CollectAppend(Visits(absolutePath, a), Visits(absolutePath, b), parse);
  }

  /** A worked example: a directory holding a two-line note `a.md` and a text file `b.txt`
    * scans to the single record of `a.md`, with empty content. */
  lemma OneNoteExample(parse: Parser)
    requires parse("m") == Ok(Metadata(Some("A"), Some("/a"), Some("2021-01-01"), Some("2021-01-02"), None))
    ensures TreeMetadata("/base", Dir("base", [File("a.md", "t\nm"), File("b.txt", "x")]), parse)
            == Ok([Post("A", "", Some("/a"), Some("2021-01-01"), Some("2021-01-02"), None)])
  {
    var a, b := File("a.md", "t\nm"), File("b.txt", "x");
    var va, vb := Visit("/base/a.md", a), Visit("/base/b.txt", b);
    var post := Post("A", "", Some("/a"), Some("2021-01-01"), Some("2021-01-02"), None);
    ExampleVisits(a, b);
    ExampleNote(va, parse);
    assert !IsMarkdownName("b.txt") by { assert "b.txt"[2..] == ".txt"[1..]; }
    CollectSingle(va, parse);
    CollectSingle(vb, parse);
    CollectAppend([va], [vb], parse);
    assert [va] + [vb] == [va, vb];
    assert [post] + [] == [post];
  }

  lemma ExampleVisits(a: Entry, b: Entry)
    requires a == File("a.md", "t\nm") && b == File("b.txt", "x")
    ensures Visits("/base", [a, b]) == [Visit("/base/a.md", a), Visit("/base/b.txt", b)]
  {
    assert PathJoin("/base", "a.md") == "/base/a.md";
    assert PathJoin("/base", "b.txt") == "/base/b.txt";
    assert [a, b][1..] == [b];
    assert Visits("/base", [b]) == [Visit("/base/b.txt", b)] + [];
  }

  lemma ExampleNote(va: Visit, parse: Parser)
    requires va == Visit("/base/a.md", File("a.md", "t\nm"))
    requires parse("m") == Ok(Metadata(Some("A"), Some("/a"), Some("2021-01-01"), Some("2021-01-02"), None))
    ensures GetMarkdownMetaData(va, parse)
            == Ok(Some(Post("A", "", Some("/a"), Some("2021-01-01"), Some("2021-01-02"), None)))
  {
    TwoLineNote("/base/a.md", "a.md", "t", "m", parse);
    assert "t" + "\n" + "m" == "t\nm";
  }

  /** The error a failed scan reports is the first failing file's, in visit order. */
  lemma {:induction false} FirstFailureReported(visits: seq<Visit>, parse: Parser)
    requires Collect(visits, parse).Err?
    ensures exists i :: 0 <= i < |visits| &&
              GetMarkdownMetaData(visits[i], parse) == Err(Collect(visits, parse).error) &&
              forall j :: 0 <= j < i ==> GetMarkdownMetaData(visits[j], parse).Ok?
    decreases |visits|
  {
    if GetMarkdownMetaData(visits[0], parse).Ok? {
      FirstFailureReported(visits[1..], parse);
      var i :| 0 <= i < |visits[1..]| &&
               GetMarkdownMetaData(visits[1..][i], parse) == Err(Collect(visits[1..], parse).error) &&
               forall j :: 0 <= j < i ==> GetMarkdownMetaData(visits[1..][j], parse).Ok?;
      assert visits[i + 1] == visits[1..][i];
      forall j | 0 <= j < i + 1 ensures GetMarkdownMetaData(visits[j], parse).Ok? {
        if j > 0 { assert visits[j] == visits[1..][j - 1]; }
      }
    }
  }

  /** The state of `getMarkdownTreeMetadata`: the `result` array its callback pushes to. */
  class MarkdownCollector {
    const parse: Parser
    var result: seq<Post>
    /** Every callback made so far, in order. */
    ghost var calls: seq<Visit>

    constructor (parse: Parser)
      ensures this.parse == parse && result == [] && calls == []
    {
      this.parse := parse;
      result := [];
      calls := [];
    }

    /** The callback: read one path's record and push it when there is one. */
    method Process(v: Visit) returns (err: Option<ScanError>)
      modifies this
      ensures calls == old(calls) + [v]
      ensures match GetMarkdownMetaData(v, parse)
              case Err(e) => err == Some(e) && result == old(result)
              case Ok(md) => err == None && result == old(result) + Pushed(md)
    {
      calls := calls + [v];
      var metadata := GetMarkdownMetaData(v, parse);
      match metadata
      case Err(e) =>
        err := Some(e);
      case Ok(md) =>
        if md.Some? {
          result := result + [md.value];
        }
        err := None;
    }

    /** `walkDir(directory, callback)` over the entries `listing`, in listing order;
      * a throw from the callback ends the walk. */
    method WalkDir(directory: string, listing: seq<Entry>) returns (err: Option<ScanError>)
      modifies this
      ensures err.None? <==> Collect(Visits(directory, listing), parse).Ok?
      ensures err.None? ==> result == old(result) + Collect(Visits(directory, listing), parse).value
      ensures err.None? ==> calls == old(calls) + Visits(directory, listing)
      ensures err.Some? ==> Collect(Visits(directory, listing), parse) == Err(err.value)
      decreases listing, 1
    {
      var i := 0;
      while i < |listing|
        invariant 0 <= i <= |listing|
        invariant Collect(Visits(directory, listing[..i]), parse).Ok?
        invariant result == old(result) + Collect(Visits(directory, listing[..i]), parse).value
        invariant calls == old(calls) + Visits(directory, listing[..i])
      {
        ghost var here := EntryVisits(directory, listing[i]);
        err := WalkEntry(directory, listing[i]);
        WalkStep(directory, listing, i, parse);
        if err.Some? {
          return;
        }
        Associative(old(calls), Visits(directory, listing[..i]), here);
        Associative(old(result), Collect(Visits(directory, listing[..i]), parse).value,
                    Collect(here, parse).value);
        i := i + 1;
      }
      assert listing[..i] == listing;
      err := None;
    }

    /** One entry of the listing: a directory is walked, anything else goes to the callback. */
    method WalkEntry(directory: string, entry: Entry) returns (err: Option<ScanError>)
      modifies this
      ensures err.None? <==> Collect(EntryVisits(directory, entry), parse).Ok?
      ensures err.None? ==> result == old(result) + Collect(EntryVisits(directory, entry), parse).value
      ensures err.None? ==> calls == old(calls) + EntryVisits(directory, entry)
      ensures err.Some? ==> Collect(EntryVisits(directory, entry), parse) == Err(err.value)
      decreases entry, 0
    {
      var fullPath := PathJoin(directory, entry.name);
      if entry.Dir? {
        err := WalkDir(fullPath, entry.children);
      } else {
        err := Process(Visit(fullPath, entry));
        CollectSingle(Visit(fullPath, entry), parse);
      }
    }
  }

  lemma Associative<T>(a: seq<T>, b: seq<T>, c: seq<T>)
    ensures a + b + c == a + (b + c)
  {
  }

  /** One step of the walk over `listing`: entry `i` either extends the records of the
    * entries before it, or its failure is the failure of the whole listing. */
  lemma WalkStep(directory: string, listing: seq<Entry>, i: nat, parse: Parser)
    requires i < |listing|
    requires Collect(Visits(directory, listing[..i]), parse).Ok?
    ensures Visits(directory, listing[..i + 1])
            == Visits(directory, listing[..i]) + EntryVisits(directory, listing[i])
    ensures Collect(EntryVisits(directory, listing[i]), parse).Ok? ==>
            Collect(Visits(directory, listing[..i + 1]), parse)
            == Ok(Collect(Visits(directory, listing[..i]), parse).value
                  + Collect(EntryVisits(directory, listing[i]), parse).value)
    ensures Collect(EntryVisits(directory, listing[i]), parse).Err? ==>
            Collect(Visits(directory, listing), parse) == Collect(EntryVisits(directory, listing[i]), parse)
  {
    var here := EntryVisits(directory, listing[i]);
    VisitsSplitAt(directory, listing, i);
    CollectAppend(Visits(directory, listing[..i]), here, parse);
    CollectAppend(Visits(directory, listing[..i + 1]), Visits(directory, listing[i + 1..]), parse);
  }

  /** Splitting a listing at entry `i` splits its walk there. */
  lemma VisitsSplitAt(directory: string, listing: seq<Entry>, i: nat)
    requires i < |listing|
    ensures Visits(directory, listing[..i + 1])
            == Visits(directory, listing[..i]) + EntryVisits(directory, listing[i])
    ensures Visits(directory, listing)
            == Visits(directory, listing[..i + 1]) + Visits(directory, listing[i + 1..])
  {
    var e := listing[i];
    assert Visits(directory, [e]) == EntryVisits(directory, e) + Visits(directory, []);
    VisitsAppend(directory, listing[..i], [e]);
    assert listing[..i + 1] == listing[..i] + [e];
    VisitsAppend(directory, listing[..i + 1], listing[i + 1..]);
    assert listing[..i + 1] + listing[i + 1..] == listing;
  }

  /** Collecting over one visit is that visit's callback. */
  lemma CollectSingle(v: Visit, parse: Parser)
    ensures Collect([v], parse) == match GetMarkdownMetaData(v, parse)
                                   case Err(e) => Err(e)
                                   case Ok(md) => Ok(Pushed(md))
  {
    assert [v][1..] == [];
    if GetMarkdownMetaData(v, parse).Ok? {
      assert Pushed(GetMarkdownMetaData(v, parse).value) + [] == Pushed(GetMarkdownMetaData(v, parse).value);
    }
  }

  /** `getMarkdownTreeMetadata(absolutePath)`: walk the tree and return every record
    * in visit order, or the first error. */
  method GetMarkdownTreeMetadata(absolutePath: string, root: Entry, parse: Parser)
    returns (r: Result<seq<Post>, ScanError>)
    ensures r == TreeMetadata(absolutePath, root, parse)
  {
    if !root.Dir? {
      return Err(NotADirectory(absolutePath));
    }
    var collector := new MarkdownCollector(parse);
    var err := collector.WalkDir(absolutePath, root.children);
    if err.Some? {
      return Err(err.value);
    }
    assert collector.result == Collect(Visits(absolutePath, root.children), parse).value;
    return Ok(collector.result);
  }
}
