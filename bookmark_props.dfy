/** What the generated bookmark file promises: its fixed frame, the nesting of its folders,
    one folder per distinct key at each level, and one link per record. */
module BookmarkProperties {
  import opened Common
  import opened Text
  import opened Exporters
  import opened Grouping
  import opened Bookmarks

  // ---- The frame: fixed header and closing line ----

  lemma FlattenSnoc(lines: seq<Line>, line: Line)
    ensures Flatten(lines + [line]) == Flatten(lines) + Render(line)
  {
    JoinSnoc(lines, line, Render);
  }

  /** Rendering distributes over concatenation of line sequences. */
  lemma FlattenAppend(a: seq<Line>, b: seq<Line>)
    ensures Flatten(a + b) == Flatten(a) + Flatten(b)
  {
    JoinAppend(a, b, Render);
  }

  /** The five lines every bookmark file starts with. */
  const HeaderText: string :=
    "<!DOCTYPE NETSCAPE-Bookmark-file-1>\n" +
    "<META HTTP-EQUIV=\"Content-Type\" CONTENT=\"text/html; charset=UTF-8\">\n" +
    "<TITLE>Bookmarks</TITLE>\n" +
    "<H1>Bookmarks Menu</H1>\n" +
    "<DL><p>\n"

  /** The line every bookmark file ends with. */
  const Closer: string := "</DL><p>\n"

  lemma HeaderRendering()
    ensures Flatten(Header) == HeaderText
  {
    var h := Header;
    assert h == [] + [h[0]] + [h[1]] + [h[2]] + [h[3]] + [h[4]];
    FlattenSnoc([], h[0]);
    FlattenSnoc([h[0]], h[1]);
    assert [h[0]] + [h[1]] == [h[0], h[1]];
    FlattenSnoc([h[0], h[1]], h[2]);
    assert [h[0], h[1]] + [h[2]] == [h[0], h[1], h[2]];
    FlattenSnoc([h[0], h[1], h[2]], h[3]);
    assert [h[0], h[1], h[2]] + [h[3]] == [h[0], h[1], h[2], h[3]];
    FlattenSnoc([h[0], h[1], h[2], h[3]], h[4]);
    assert [h[0], h[1], h[2], h[3]] + [h[4]] == h;
    assert Render(h[4]) == "<DL><p>\n";
  }

  lemma CloserRendering()
    ensures Flatten([Close(0)]) == Closer
  {
    FlattenSnoc([], Close(0));
    assert [] + [Close(0)] == [Close(0)];
  }

  /** The page is the fixed header, the group folders, and the closing line. */
  lemma DocumentFrame(rs: seq<Record>)
    ensures Document(rs) == HeaderText + Flatten(GroupBlocks(rs, Groups(rs))) + Closer
    ensures |HeaderText| + |Closer| <= |Document(rs)|
    ensures Document(rs)[..|HeaderText|] == HeaderText
    ensures Document(rs)[|Document(rs)| - |Closer|..] == Closer
  {
    var body := GroupBlocks(rs, Groups(rs));
    FlattenAppend(Header + body, [Close(0)]);
    FlattenAppend(Header, body);
    HeaderRendering();
    CloserRendering();
    Ends(HeaderText, Flatten(body), Closer);
  }

  /** With no records the page is the header followed directly by the closing line. */
  lemma EmptyDocument()
    ensures Document([]) == HeaderText + Closer
  {
    DocumentFrame([]);
    assert Keys([], GroupOf) == [];
    assert Groups([]) == [];
  }

  // ---- Nesting ----

  /** The depth after one line written at depth `depth`, or None if the line does not belong
      there: a `<DL><p>` of level `l` opens depth `l + 1` from depth `l`, a `</DL><p>` of
      level `l` closes it back to `l`, a folder heading of level `l` stands at depth `l`, a
      link at depth 4 (inside a location folder), and the header lines at depth 0. */
  function Step(line: Line, depth: nat): Option<nat> {
    match line
    case Raw(_) => if depth == 0 then Some(0) else None
    case Open(level) => if level == depth then Some(depth + 1) else None
    case Close(level) => if level + 1 == depth then Some(level) else None
    case Folder(level, _) => if level == depth then Some(depth) else None
    case Link(_) => if depth == 4 then Some(depth) else None
  }

  /** The depth after writing `lines` from depth `depth`, or None if some line is out of
      place. */
  function Scan(lines: seq<Line>, depth: nat): Option<nat> {
    if lines == [] then Some(depth)
    else
      match Scan(lines[..|lines| - 1], depth)
      case None => None
      case Some(d) => Step(lines[|lines| - 1], d)
  }

  lemma ScanSnoc(lines: seq<Line>, line: Line, depth: nat)
    ensures Scan(lines + [line], depth) ==
      match Scan(lines, depth)
      case None => None
      case Some(d) => Step(line, d)
  {
    assert (lines + [line])[..|lines|] == lines;
  }

  lemma {:induction false} ScanAppend(a: seq<Line>, b: seq<Line>, depth: nat)
    ensures Scan(a + b, depth) ==
      match Scan(a, depth)
      case None => None
      case Some(d) => Scan(b, d)
  {
    if b == [] {
      assert a + b == a;
    } else {
      var init := b[..|b| - 1];
      ScanAppend(a, init, depth);
      assert (a + b)[..|a + b| - 1] == a + init;
      assert (a + b)[|a + b| - 1] == b[|b| - 1];
    }
  }

  /** A folder heading, its `<DL><p>`, a body that returns to the inner depth, and the
      matching `</DL><p>` return to the folder's own depth. */
  lemma FolderNests(level: nat, title: string, body: seq<Line>)
    requires Scan(body, level + 1) == Some(level + 1)
    ensures Scan([Folder(level, title), Open(level)] + body + [Close(level)], level) == Some(level)
  {
    var head := [Folder(level, title), Open(level)];
    ScanSnoc([], Folder(level, title), level);
    ScanSnoc([Folder(level, title)], Open(level), level);
    assert [] + [Folder(level, title)] == [Folder(level, title)];
    assert [Folder(level, title)] + [Open(level)] == head;
    ScanAppend(head, body, level);
    ScanSnoc(head + body, Close(level), level);
  }

  lemma {:induction false} LinkLinesNest(rs: seq<Record>)
    ensures Scan(LinkLines(rs), 4) == Some(4)
  {
    if rs != [] {
      LinkLinesNest(rs[..|rs| - 1]);
      ScanSnoc(LinkLines(rs[..|rs| - 1]), Link(rs[|rs| - 1]), 4);
    }
  }

  lemma {:induction false} LocationBlocksNest(rs: seq<Record>, g: string, c: Cell, ls: seq<Cell>)
    ensures Scan(LocationBlocks(rs, g, c, ls), 3) == Some(3)
  {
    if ls != [] {
      var l := ls[|ls| - 1];
      LocationBlocksNest(rs, g, c, ls[..|ls| - 1]);
      LinkLinesNest(InLocation(rs, g, c, l));
      FolderNests(3, Show(l), LinkLines(InLocation(rs, g, c, l)));
      ScanAppend(LocationBlocks(rs, g, c, ls[..|ls| - 1]), LocationBlock(rs, g, c, l), 3);
    }
  }

  lemma {:induction false} CountryBlocksNest(rs: seq<Record>, g: string, cs: seq<Cell>)
    ensures Scan(CountryBlocks(rs, g, cs), 2) == Some(2)
  {
    if cs != [] {
      var c := cs[|cs| - 1];
      CountryBlocksNest(rs, g, cs[..|cs| - 1]);
      LocationBlocksNest(rs, g, c, Locations(rs, g, c));
      FolderNests(2, Show(c), LocationBlocks(rs, g, c, Locations(rs, g, c)));
      ScanAppend(CountryBlocks(rs, g, cs[..|cs| - 1]), CountryBlock(rs, g, c), 2);
    }
  }

  lemma {:induction false} GroupBlocksNest(rs: seq<Record>, gs: seq<string>)
    ensures Scan(GroupBlocks(rs, gs), 1) == Some(1)
  {
    if gs != [] {
      var g := gs[|gs| - 1];
      GroupBlocksNest(rs, gs[..|gs| - 1]);
      CountryBlocksNest(rs, g, Countries(rs, g));
      FolderNests(1, g, CountryBlocks(rs, g, Countries(rs, g)));
      ScanAppend(GroupBlocks(rs, gs[..|gs| - 1]), GroupBlock(rs, g), 1);
    }
  }

  /** The number of `<DL><p>` and of `</DL><p>` lines. */
  function Opens(lines: seq<Line>): nat {
    if lines == [] then 0 else Opens(lines[..|lines| - 1]) + (if lines[|lines| - 1].Open? then 1 else 0)
  }

  function Closes(lines: seq<Line>): nat {
    if lines == [] then 0 else Closes(lines[..|lines| - 1]) + (if lines[|lines| - 1].Close? then 1 else 0)
  }

  /** Along a well-placed run of lines, the depth grows by one per `<DL><p>` and shrinks by
      one per `</DL><p>`. */
  lemma {:induction false} ScanCounts(lines: seq<Line>, depth: nat)
    requires Scan(lines, depth).Some?
    ensures Scan(lines, depth).value + Closes(lines) == depth + Opens(lines)
  {
    if lines != [] {
      ScanCounts(lines[..|lines| - 1], depth);
    }
  }

  /** The page is well nested: every line stands at the depth its kind requires, every
      `</DL><p>` closes the innermost open `<DL><p>` of the same level (and so the same
      indentation), links sit only inside location folders, three folder levels deep, and
      the page ends with every `<DL><p>` closed. */
  lemma DocumentNesting(rs: seq<Record>)
    ensures Scan(DocLines(rs), 0) == Some(0)
    ensures Opens(DocLines(rs)) == Closes(DocLines(rs))
  {
    var body := GroupBlocks(rs, Groups(rs));
    assert Scan(Header, 0) == Some(1) by {
      var h := Header;
      ScanSnoc([], h[0], 0);
      ScanSnoc([h[0]], h[1], 0);
      ScanSnoc([h[0], h[1]], h[2], 0);
      ScanSnoc([h[0], h[1], h[2]], h[3], 0);
      ScanSnoc([h[0], h[1], h[2], h[3]], h[4], 0);
      assert [] + [h[0]] == [h[0]];
      assert [h[0]] + [h[1]] == [h[0], h[1]];
      assert [h[0], h[1]] + [h[2]] == [h[0], h[1], h[2]];
      assert [h[0], h[1], h[2]] + [h[3]] == [h[0], h[1], h[2], h[3]];
      assert [h[0], h[1], h[2], h[3]] + [h[4]] == h;
    }
    GroupBlocksNest(rs, Groups(rs));
    ScanAppend(Header, body, 0);
    ScanSnoc(Header + body, Close(0), 0);
    ScanCounts(DocLines(rs), 0);
  }

  // ---- One folder per distinct key ----

  /** The titles of the folder headings of level `level`, in order. */
  function Titles(lines: seq<Line>, level: nat): seq<string> {
    if lines == [] then []
    else
      Titles(lines[..|lines| - 1], level) +
      match lines[|lines| - 1]
      case Folder(l, title) => if l == level then [title] else []
      case _ => []
  }

  lemma {:induction false} TitlesAppend(a: seq<Line>, b: seq<Line>, level: nat)
    ensures Titles(a + b, level) == Titles(a, level) + Titles(b, level)
  {
    if b == [] {
      assert a + b == a;
    } else {
      var init := b[..|b| - 1];
      TitlesAppend(a, init, level);
      assert (a + b)[..|a + b| - 1] == a + init;
      assert (a + b)[|a + b| - 1] == b[|b| - 1];
    }
  }

  /** The titles in a folder block of level `l`: its own title at level `l`, its body's
      titles at the other levels. */
  lemma FolderTitles(l: nat, title: string, body: seq<Line>, level: nat)
    ensures Titles([Folder(l, title), Open(l)] + body + [Close(l)], level) ==
      (if level == l then [title] else []) + Titles(body, level)
  {
    var head := [Folder(l, title), Open(l)];
    TitlesAppend(head + body, [Close(l)], level);
    TitlesAppend(head, body, level);
    assert head[..1] == [Folder(l, title)] && [Folder(l, title)][..0] == [];
    assert [Close(l)][..0] == [];
  }

  lemma {:induction false} LinkLinesTitles(rs: seq<Record>, level: nat)
    ensures Titles(LinkLines(rs), level) == []
  {
    if rs != [] {
      LinkLinesTitles(rs[..|rs| - 1], level);
    }
  }

  lemma {:induction false} LocationBlocksTitles(rs: seq<Record>, g: string, c: Cell, ls: seq<Cell>, level: nat)
    ensures Titles(LocationBlocks(rs, g, c, ls), level) == if level == 3 then Keys(ls, Show) else []
  {
    if ls != [] {
      var l := ls[|ls| - 1];
      LocationBlocksTitles(rs, g, c, ls[..|ls| - 1], level);
      TitlesAppend(LocationBlocks(rs, g, c, ls[..|ls| - 1]), LocationBlock(rs, g, c, l), level);
      FolderTitles(3, Show(l), LinkLines(InLocation(rs, g, c, l)), level);
      LinkLinesTitles(InLocation(rs, g, c, l), level);
    }
  }

  lemma {:induction false} CountryBlocksTitles(rs: seq<Record>, g: string, cs: seq<Cell>, level: nat)
    requires level < 3
    ensures Titles(CountryBlocks(rs, g, cs), level) == if level == 2 then Keys(cs, Show) else []
  {
    if cs != [] {
      var c := cs[|cs| - 1];
      CountryBlocksTitles(rs, g, cs[..|cs| - 1], level);
      TitlesAppend(CountryBlocks(rs, g, cs[..|cs| - 1]), CountryBlock(rs, g, c), level);
      FolderTitles(2, Show(c), LocationBlocks(rs, g, c, Locations(rs, g, c)), level);
      LocationBlocksTitles(rs, g, c, Locations(rs, g, c), level);
    }
  }

  lemma {:induction false} GroupBlocksTitles(rs: seq<Record>, gs: seq<string>)
    ensures Titles(GroupBlocks(rs, gs), 1) == gs
  {
    if gs != [] {
      var g := gs[|gs| - 1];
      GroupBlocksTitles(rs, gs[..|gs| - 1]);
      TitlesAppend(GroupBlocks(rs, gs[..|gs| - 1]), GroupBlock(rs, g), 1);
      FolderTitles(1, g, CountryBlocks(rs, g, Countries(rs, g)), 1);
      CountryBlocksTitles(rs, g, Countries(rs, g), 1);
    }
  }

  /** Lines without folder headings have no titles. */
  lemma {:induction false} NoFolderTitles(lines: seq<Line>, level: nat)
    requires forall i :: 0 <= i < |lines| ==> !lines[i].Folder?
    ensures Titles(lines, level) == []
  {
    if lines != [] {
      NoFolderTitles(lines[..|lines| - 1], level);
    }
  }

  /** `Groups(rs)` lists each group name of the records once. */
  lemma GroupKeys(rs: seq<Record>)
    ensures NoDuplicates(Groups(rs))
    ensures forall g :: g in Groups(rs) <==> exists r :: r in rs && r.group == g
  {
    DistinctSpec(Keys(rs, GroupOf));
    KeysMembers(rs, GroupOf);
  }

  /** `Countries(rs, g)` lists each country of the records of group `g` once. */
  lemma CountryKeys(rs: seq<Record>, g: string)
    ensures NoDuplicates(Countries(rs, g))
    ensures forall c :: c in Countries(rs, g) <==> exists r :: r in rs && r.group == g && r.country == c
  {
    DistinctSpec(Keys(InGroup(rs, g), CountryOf));
    KeysMembers(InGroup(rs, g), CountryOf);
    SelectSpec(rs, GroupOf, g);
    forall c ensures c in Countries(rs, g) <==> exists r :: r in rs && r.group == g && r.country == c {
      if c in Countries(rs, g) {
        var r :| r in InGroup(rs, g) && CountryOf(r) == c;
        assert r in rs && r.group == g && r.country == c;
      }
      if exists r :: r in rs && r.group == g && r.country == c {
        var r :| r in rs && r.group == g && r.country == c;
        assert r in InGroup(rs, g) && CountryOf(r) == c;
      }
    }
  }

  /** `Locations(rs, g, c)` lists each location of the records of group `g` and country `c`
      once. */
  lemma LocationKeys(rs: seq<Record>, g: string, c: Cell)
    ensures NoDuplicates(Locations(rs, g, c))
    ensures forall l :: l in Locations(rs, g, c) <==>
      exists r :: r in rs && r.group == g && r.country == c && r.location == l
  {
    DistinctSpec(Keys(InCountry(rs, g, c), LocationOf));
    KeysMembers(InCountry(rs, g, c), LocationOf);
    SelectSpec(rs, GroupOf, g);
    SelectSpec(InGroup(rs, g), CountryOf, c);
    forall l ensures l in Locations(rs, g, c) <==>
      exists r :: r in rs && r.group == g && r.country == c && r.location == l
    {
      if l in Locations(rs, g, c) {
        var r :| r in InCountry(rs, g, c) && LocationOf(r) == l;
        assert r in InGroup(rs, g);
        assert r in rs && r.group == g && r.country == c && r.location == l;
      }
      if exists r :: r in rs && r.group == g && r.country == c && r.location == l {
        var r :| r in rs && r.group == g && r.country == c && r.location == l;
        assert r in InGroup(rs, g);
        assert r in InCountry(rs, g, c) && LocationOf(r) == l;
      }
    }
  }

  /** The header and the closing line hold no folder. */
  lemma FrameTitles(level: nat)
    ensures Titles(Header, level) == [] && Titles([Close(0)], level) == []
  {
    NoFolderTitles(Header, level);
    NoFolderTitles([Close(0)], level);
  }

  /** The top-level folders of the page are the group names of the records, each once. */
  lemma GroupFolders(rs: seq<Record>)
    ensures Titles(DocLines(rs), 1) == Groups(rs)
    ensures NoDuplicates(Groups(rs))
    ensures forall g :: g in Groups(rs) <==> exists r :: r in rs && r.group == g
  {
    var body := GroupBlocks(rs, Groups(rs));
    FrameTitles(1);
    GroupBlocksTitles(rs, Groups(rs));
    TitlesAppend(Header, body, 1);
    assert Titles(Header + body, 1) == Groups(rs);
    TitlesAppend(Header + body, [Close(0)], 1);
    assert Titles(DocLines(rs), 1) == Groups(rs) + [];
    GroupKeys(rs);
  }

  /** Inside the folder of group `g`: one folder per country among that group's records,
      each once. */
  lemma CountryFolders(rs: seq<Record>, g: string)
    ensures Titles(GroupBlock(rs, g), 2) == Keys(Countries(rs, g), Show)
    ensures NoDuplicates(Countries(rs, g))
    ensures forall c :: c in Countries(rs, g) <==> exists r :: r in rs && r.group == g && r.country == c
  {
    FolderTitles(1, g, CountryBlocks(rs, g, Countries(rs, g)), 2);
    CountryBlocksTitles(rs, g, Countries(rs, g), 2);
    CountryKeys(rs, g);
  }

  /** Inside the folder of country `c` of group `g`: one folder per location among the
      records of that group and country, each once. */
  lemma LocationFolders(rs: seq<Record>, g: string, c: Cell)
    ensures Titles(CountryBlock(rs, g, c), 3) == Keys(Locations(rs, g, c), Show)
    ensures NoDuplicates(Locations(rs, g, c))
    ensures forall l :: l in Locations(rs, g, c) <==>
      exists r :: r in rs && r.group == g && r.country == c && r.location == l
  {
    FolderTitles(2, Show(c), LocationBlocks(rs, g, c, Locations(rs, g, c)), 3);
    LocationBlocksTitles(rs, g, c, Locations(rs, g, c), 3);
    LocationKeys(rs, g, c);
  }

  // ---- One link per record ----

  /** The records behind the link lines, in order. */
  function LinkedRecords(lines: seq<Line>): seq<Record> {
    if lines == [] then []
    else
      LinkedRecords(lines[..|lines| - 1]) +
      match lines[|lines| - 1]
      case Link(r) => [r]
      case _ => []
  }

  lemma {:induction false} LinkedAppend(a: seq<Line>, b: seq<Line>)
    ensures LinkedRecords(a + b) == LinkedRecords(a) + LinkedRecords(b)
  {
    if b == [] {
      assert a + b == a;
    } else {
      var init := b[..|b| - 1];
      LinkedAppend(a, init);
      assert (a + b)[..|a + b| - 1] == a + init;
      assert (a + b)[|a + b| - 1] == b[|b| - 1];
    }
  }

  /** The links of a folder block are the links of its body. */
  lemma FolderLinks(l: nat, title: string, body: seq<Line>)
    ensures LinkedRecords([Folder(l, title), Open(l)] + body + [Close(l)]) == LinkedRecords(body)
  {
    var head := [Folder(l, title), Open(l)];
    LinkedAppend(head + body, [Close(l)]);
    LinkedAppend(head, body);
    assert head[..1] == [Folder(l, title)] && [Folder(l, title)][..0] == [];
    assert [Close(l)][..0] == [];
  }

  lemma {:induction false} LinkLinesLinked(rs: seq<Record>)
    ensures LinkedRecords(LinkLines(rs)) == rs
  {
    if rs != [] {
      LinkLinesLinked(rs[..|rs| - 1]);
      LinkedAppend(LinkLines(rs[..|rs| - 1]), [Link(rs[|rs| - 1])]);
      assert [Link(rs[|rs| - 1])][..0] == [];
    }
  }

  /** A location folder links exactly the records of its group, country and location, in
      input order. */
  lemma LeafLinks(rs: seq<Record>, g: string, c: Cell, l: Cell)
    ensures LinkedRecords(LocationBlock(rs, g, c, l)) == InLocation(rs, g, c, l)
    ensures forall r :: r in InLocation(rs, g, c, l) <==>
      r in rs && r.group == g && r.country == c && r.location == l
  {
    FolderLinks(3, Show(l), LinkLines(InLocation(rs, g, c, l)));
    LinkLinesLinked(InLocation(rs, g, c, l));
    SelectSpec(rs, GroupOf, g);
    SelectSpec(InGroup(rs, g), CountryOf, c);
    SelectSpec(InCountry(rs, g, c), LocationOf, l);
  }

  lemma {:induction false} LocationBlocksLinks(rs: seq<Record>, g: string, c: Cell, ls: seq<Cell>)
    ensures LinkedRecords(LocationBlocks(rs, g, c, ls)) == Gather(InCountry(rs, g, c), LocationOf, ls)
  {
    if ls != [] {
      var l := ls[|ls| - 1];
      LocationBlocksLinks(rs, g, c, ls[..|ls| - 1]);
      LinkedAppend(LocationBlocks(rs, g, c, ls[..|ls| - 1]), LocationBlock(rs, g, c, l));
      FolderLinks(3, Show(l), LinkLines(InLocation(rs, g, c, l)));
      LinkLinesLinked(InLocation(rs, g, c, l));
    }
  }

  /** A country folder links each record of its group and country once. */
  lemma CountryBlockLinks(rs: seq<Record>, g: string, c: Cell)
    ensures multiset(LinkedRecords(CountryBlock(rs, g, c))) == multiset(InCountry(rs, g, c))
  {
    FolderLinks(2, Show(c), LocationBlocks(rs, g, c, Locations(rs, g, c)));
    LocationBlocksLinks(rs, g, c, Locations(rs, g, c));
    GroupingPreserves(InCountry(rs, g, c), LocationOf);
  }

  lemma {:induction false} CountryBlocksLinks(rs: seq<Record>, g: string, cs: seq<Cell>)
    ensures multiset(LinkedRecords(CountryBlocks(rs, g, cs))) == multiset(Gather(InGroup(rs, g), CountryOf, cs))
  {
    if cs != [] {
      var c := cs[|cs| - 1];
      CountryBlocksLinks(rs, g, cs[..|cs| - 1]);
      LinkedAppend(CountryBlocks(rs, g, cs[..|cs| - 1]), CountryBlock(rs, g, c));
      CountryBlockLinks(rs, g, c);
    }
  }

  /** A group folder links each record of its group once. */
  lemma GroupBlockLinks(rs: seq<Record>, g: string)
    ensures multiset(LinkedRecords(GroupBlock(rs, g))) == multiset(InGroup(rs, g))
  {
    FolderLinks(1, g, CountryBlocks(rs, g, Countries(rs, g)));
    CountryBlocksLinks(rs, g, Countries(rs, g));
    GroupingPreserves(InGroup(rs, g), CountryOf);
  }

  lemma {:induction false} GroupBlocksLinks(rs: seq<Record>, gs: seq<string>)
    ensures multiset(LinkedRecords(GroupBlocks(rs, gs))) == multiset(Gather(rs, GroupOf, gs))
  {
    if gs != [] {
      var g := gs[|gs| - 1];
      GroupBlocksLinks(rs, gs[..|gs| - 1]);
      LinkedAppend(GroupBlocks(rs, gs[..|gs| - 1]), GroupBlock(rs, g));
      GroupBlockLinks(rs, g);
    }
  }

  lemma {:induction false} NoLinkRecords(lines: seq<Line>)
    requires forall i :: 0 <= i < |lines| ==> !lines[i].Link?
    ensures LinkedRecords(lines) == []
  {
    if lines != [] {
      NoLinkRecords(lines[..|lines| - 1]);
    }
  }

  /** The header and the closing line hold no link. */
  lemma FrameLinks()
    ensures LinkedRecords(Header) == [] && LinkedRecords([Close(0)]) == []
  {
    NoLinkRecords(Header);
    NoLinkRecords([Close(0)]);
  }

  /** Grouping is loss-free: the page holds one `<DT><A HREF=...>` line per record, and each
      record is linked as often as it occurs in the input. */
  lemma GroupingIsLossFree(rs: seq<Record>)
    ensures multiset(LinkedRecords(DocLines(rs))) == multiset(rs)
    ensures |LinkedRecords(DocLines(rs))| == |rs|
  {
    var body := GroupBlocks(rs, Groups(rs));
    LinkedAppend(Header + body, [Close(0)]);
    LinkedAppend(Header, body);
    FrameLinks();
    GroupBlocksLinks(rs, Groups(rs));
    GroupingPreserves(rs, GroupOf);
    assert LinkedRecords(DocLines(rs)) == LinkedRecords(body);
    assert |LinkedRecords(DocLines(rs))| == |multiset(LinkedRecords(DocLines(rs)))|;
  }

  // ---- Link targets and texts ----

  /** None of the filter's tokens has a non-standard URL, so a link made from a record of
      the filter points at the bare address. */
  lemma TokensHaveBareUrls(r: Record)
    requires r.exporterType in Tokens
    ensures r.exporterType !in NonStandardUrlMap
    ensures Url(r) == "https://" + Show(r.ipAddress)
  {
    assert Tokens == ["exporter_aes", "exporter_avayasbc", "exporter_acm"];
    assert NonStandardUrlMap.Keys == {"exporter_ems", "exporter_ams", "exporter_voiceportal"};
  }

  /** Every record the filter emits gets the bare-address URL. */
  lemma FilteredLinksUseBareAddress(t: Table, groupName: string)
    requires Filter(t, groupName).Success?
    ensures forall r :: r in Filter(t, groupName).value ==> Url(r) == "https://" + Show(r.ipAddress)
  {
    FilteredRecordsAreTagged(t, groupName);
    forall r | r in Filter(t, groupName).value ensures Url(r) == "https://" + Show(r.ipAddress) {
      TokensHaveBareUrls(r);
    }
  }

  /** Every suffix in the URL map begins a port (':') or a path ('/'). */
  lemma SuffixesStartWithSeparator()
    ensures forall k :: k in NonStandardUrlMap ==>
      |NonStandardUrlMap[k]| > 0 && NonStandardUrlMap[k][0] in {':', '/'}
  {
  }

  /** The host part of what follows a URL's scheme: everything up to the first ':' or '/'. */
  function HostPart(s: string): string {
    if s == [] || s[0] == ':' || s[0] == '/' then [] else [s[0]] + HostPart(s[1..])
  }

  /** The host an https URL points at; None for a URL of any other scheme. */
  function Host(url: string): Option<string> {
    if |url| >= 8 && url[..8] == "https://" then Some(HostPart(url[8..])) else None
  }

  lemma {:induction false} HostPartStops(a: string, b: string)
    requires ':' !in a && '/' !in a
    requires b == [] || b[0] == ':' || b[0] == '/'
    ensures HostPart(a + b) == a
  {
    if a != [] {
      assert (a + b)[1..] == a[1..] + b;
      HostPartStops(a[1..], b);
    }
  }

  /** Whatever the type, a link points at the record's address: a suffix from the map adds a
      port or a path, never more host. */
  lemma UrlHost(r: Record)
    requires ':' !in Show(r.ipAddress) && '/' !in Show(r.ipAddress)
    ensures Host(Url(r)) == Some(Show(r.ipAddress))
  {
    var suffix := if r.exporterType in NonStandardUrlMap then NonStandardUrlMap[r.exporterType] else "";
    SuffixesStartWithSeparator();
    assert Url(r) == "https://" + (Show(r.ipAddress) + suffix);
    HostPartStops(Show(r.ipAddress), suffix);
  }

  /** A type `exporter_<kind>` is shown as `<kind>-<hostname>`. */
  lemma ShortLabel(r: Record, kind: string)
    requires '_' !in kind
    requires r.exporterType == "exporter" + "_" + kind
    ensures LinkText(r) == kind + "-" + Show(r.hostname)
  {
    LastPieceAfter("exporter", '_', kind);
  }

  /** The short labels of the three tokens: the text after their last '_'. */
  lemma TokenLabels(r: Record)
    ensures r.exporterType == "exporter_aes" ==> LinkText(r) == "aes" + "-" + Show(r.hostname)
    ensures r.exporterType == "exporter_avayasbc" ==> LinkText(r) == "avayasbc" + "-" + Show(r.hostname)
    ensures r.exporterType == "exporter_acm" ==> LinkText(r) == "acm" + "-" + Show(r.hostname)
  {
    if r.exporterType == "exporter_aes" {
      assert "exporter" + "_" + "aes" == "exporter_aes";
      ShortLabel(r, "aes");
    } else if r.exporterType == "exporter_avayasbc" {
      assert "exporter" + "_" + "avayasbc" == "exporter_avayasbc";
      ShortLabel(r, "avayasbc");
    } else if r.exporterType == "exporter_acm" {
      assert "exporter" + "_" + "acm" == "exporter_acm";
      ShortLabel(r, "acm");
    }
  }
}
