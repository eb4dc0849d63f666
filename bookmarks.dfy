/** `generate_bookmarks_html`: the Netscape bookmark file built from the filtered records,
    one folder per group, per country within it and per location within that, holding one
    link per record. */
module Bookmarks {
  import opened Common
  import opened Text
  import opened Exporters
  import opened Grouping

  // ---- Cells, URLs and link texts ----

  /** A cell as an f-string writes it: its text, or "nan" for a missing value. A cell holding
      the text "nan" is written like a missing one. */
  function Show(c: Cell): (s: string)
    ensures c.Some? ==> s == c.value
    ensures s == "nan" <==> c == None || c == Some("nan")
  {
    match c
    case Some(s) => s
    case None => "nan"
  }

  /** Exporter types whose web console sits at a non-standard place, with the suffix that
      follows the address in its URL. */
  const NonStandardUrlMap: map<string, string> := map[
    "exporter_ems" := "/sbc",
    "exporter_ams" := ":8443/emlogin",
    "exporter_voiceportal" := ":5432"
  ]

  /** The link target of a record. The source tests whether the suffix starts with ':' and
      builds the same string in both branches, so the URL is always the address followed by
      the type's suffix, if it has one. */
  function Url(r: Record): (url: string)
    ensures url == "https://" + Show(r.ipAddress) +
      (if r.exporterType in NonStandardUrlMap then NonStandardUrlMap[r.exporterType] else "")
  {
    if r.exporterType in NonStandardUrlMap then
      var urlPart := NonStandardUrlMap[r.exporterType];
      if |urlPart| > 0 && urlPart[0] == ':' then "https://" + Show(r.ipAddress) + urlPart
      else "https://" + Show(r.ipAddress) + urlPart
    else
      "https://" + Show(r.ipAddress)
  }

  /** `f"{exporter_type}-{hostname}"`, where `exporter_type` is the part of the type after its
      last '_'. */
  function Label(exporterType: string, hostname: Cell): string {
    LastPiece(exporterType, '_') + "-" + Show(hostname)
  }

  /** The text of a record's link: the part of its type after the last '_', a dash, and its
      hostname. The source reads the hostname under the key 'Hostnames', which no record
      has; this is the intended reading, under 'Hostname' (see `LinkTextAsWritten`). */
  function LinkText(r: Record): (text: string)
    ensures exists kind ::
      && text == kind + "-" + Show(r.hostname)
      && '_' !in kind
      && ('_' !in r.exporterType ==> kind == r.exporterType)
      && ('_' in r.exporterType ==>
            exists i :: 0 <= i < |r.exporterType| && r.exporterType[i] == '_' && kind == r.exporterType[i + 1..])
  {
    Label(r.exporterType, r.hostname)
  }

  /** A link line after its indentation. */
  function Anchor(url: string, text: string): string {
    "<DT><A HREF=\"" + url + "\">" + text + "</A>\n"
  }

  // ---- Lines of the document ----

  /** One line of the output. `level` is the nesting depth of a folder heading or of a
      `<DL><p>` / `</DL><p>` pair, and fixes its indentation; a link line carries the record
      it is made from. */
  datatype Line =
    | Raw(text: string)
    | Open(level: nat)
    | Close(level: nat)
    | Folder(level: nat, title: string)
    | Link(record: Record)

  /** Four spaces per level. */
  function Indent(level: nat): (s: string)
    ensures |s| == 4 * level
    ensures forall i :: 0 <= i < |s| ==> s[i] == ' '
  {
    if level == 0 then "" else Indent(level - 1) + "    "
  }

  /** How deep a line sits: the level of a folder heading or of a `<DL><p>` / `</DL><p>` line,
      four for a link, none for a fixed header line. */
  function Depth(line: Line): nat {
    match line
    case Raw(_) => 0
    case Open(level) => level
    case Close(level) => level
    case Folder(level, _) => level
    case Link(_) => 4
  }

  /** `s` is one tag line at depth `d`: four spaces per level, a tag, a final newline. */
  predicate IndentedTag(s: string, d: nat) {
    && |s| > 4 * d + 1
    && s[..4 * d] == Indent(d)
    && s[4 * d] == '<'
    && s[|s| - 1] == '\n'
  }

  lemma IndentTag(d: nat, tag: string)
    requires |tag| > 1 && tag[0] == '<' && tag[|tag| - 1] == '\n'
    ensures IndentedTag(Indent(d) + tag, d)
  {
    assert (Indent(d) + tag)[..4 * d] == Indent(d);
  }

  /** The text of one line, newline included. A fixed line is written as it is; every other
      line is indented four spaces per level of nesting, with links at depth four. */
  function Render(line: Line): (s: string)
    ensures line.Raw? ==> s == line.text
    ensures !line.Raw? ==> IndentedTag(s, Depth(line))
  {
    match line
    case Raw(text) => text
    case Open(level) =>
      IndentTag(level, "<DL><p>\n");
      Indent(level) + "<DL><p>\n"
    case Close(level) =>
      IndentTag(level, "</DL><p>\n");
      Indent(level) + "</DL><p>\n"
    case Folder(level, title) =>
      var tag := "<DT><H3>" + title + "</H3>\n";
      IndentTag(level, tag);
      Indent(level) + tag
    case Link(r) =>
      var tag := Anchor(Url(r), LinkText(r));
      IndentTag(4, tag);
      Indent(4) + tag
  }

  /** The lines written one after another. */
  function Flatten(lines: seq<Line>): string {
    Join(lines, Render)
  }

  // ---- The document the generator writes ----

  function GroupOf(r: Record): string { r.group }
  function CountryOf(r: Record): Cell { r.country }
  function LocationOf(r: Record): Cell { r.location }

  /** `set(item['Group Name'] for item in filtered_data)`. */
  function Groups(rs: seq<Record>): seq<string> {
    Distinct(Keys(rs, GroupOf))
  }

  /** The records of group `g`. */
  function InGroup(rs: seq<Record>, g: string): seq<Record> {
    Select(rs, GroupOf, g)
  }

  /** `set(item['Country'] for item in filtered_data if item['Group Name'] == group)`. */
  function Countries(rs: seq<Record>, g: string): seq<Cell> {
    Distinct(Keys(InGroup(rs, g), CountryOf))
  }

  /** The records of group `g` in country `c`. */
  function InCountry(rs: seq<Record>, g: string, c: Cell): seq<Record> {
    Select(InGroup(rs, g), CountryOf, c)
  }

  /** The locations of the records of group `g` in country `c`. */
  function Locations(rs: seq<Record>, g: string, c: Cell): seq<Cell> {
    Distinct(Keys(InCountry(rs, g, c), LocationOf))
  }

  /** The records of group `g` in country `c` at location `l`, in input order. */
  function InLocation(rs: seq<Record>, g: string, c: Cell, l: Cell): seq<Record> {
    Select(InCountry(rs, g, c), LocationOf, l)
  }

  /** A record is listed under location `l` exactly when its group, country and location are
      the three keys: the test of the innermost loop. */
  lemma InLocationSnoc(rs: seq<Record>, x: Record, g: string, c: Cell, l: Cell)
    ensures InLocation(rs + [x], g, c, l) ==
      InLocation(rs, g, c, l) + (if x.group == g && x.country == c && x.location == l then [x] else [])
  {
    SelectSnoc(rs, x, GroupOf, g);
    if x.group == g {
      SelectSnoc(InGroup(rs, g), x, CountryOf, c);
      if x.country == c {
        SelectSnoc(InCountry(rs, g, c), x, LocationOf, l);
      } else {
        assert InCountry(rs + [x], g, c) == InCountry(rs, g, c);
      }
    } else {
      assert InGroup(rs + [x], g) == InGroup(rs, g);
    }
  }

  /** One link line per record, in order. */
  function LinkLines(rs: seq<Record>): seq<Line> {
    if rs == [] then [] else LinkLines(rs[..|rs| - 1]) + [Link(rs[|rs| - 1])]
  }

  function LocationBlock(rs: seq<Record>, g: string, c: Cell, l: Cell): seq<Line> {
    [Folder(3, Show(l)), Open(3)] + LinkLines(InLocation(rs, g, c, l)) + [Close(3)]
  }

  function LocationBlocks(rs: seq<Record>, g: string, c: Cell, ls: seq<Cell>): seq<Line> {
    if ls == [] then []
    else LocationBlocks(rs, g, c, ls[..|ls| - 1]) + LocationBlock(rs, g, c, ls[|ls| - 1])
  }

  function CountryBlock(rs: seq<Record>, g: string, c: Cell): seq<Line> {
    [Folder(2, Show(c)), Open(2)] + LocationBlocks(rs, g, c, Locations(rs, g, c)) + [Close(2)]
  }

  function CountryBlocks(rs: seq<Record>, g: string, cs: seq<Cell>): seq<Line> {
    if cs == [] then []
    else CountryBlocks(rs, g, cs[..|cs| - 1]) + CountryBlock(rs, g, cs[|cs| - 1])
  }

  function GroupBlock(rs: seq<Record>, g: string): seq<Line> {
    [Folder(1, g), Open(1)] + CountryBlocks(rs, g, Countries(rs, g)) + [Close(1)]
  }

  function GroupBlocks(rs: seq<Record>, gs: seq<string>): seq<Line> {
    if gs == [] then []
    else GroupBlocks(rs, gs[..|gs| - 1]) + GroupBlock(rs, gs[|gs| - 1])
  }

  /** The fixed opening of every bookmark file, up to and including the top-level `<DL><p>`. */
  const Header: seq<Line> := [
    Raw("<!DOCTYPE NETSCAPE-Bookmark-file-1>\n"),
    Raw("<META HTTP-EQUIV=\"Content-Type\" CONTENT=\"text/html; charset=UTF-8\">\n"),
    Raw("<TITLE>Bookmarks</TITLE>\n"),
    Raw("<H1>Bookmarks Menu</H1>\n"),
    Open(0)
  ]

  /** The lines of the page for `rs`: the header, a block per group, the closing line. */
  function DocLines(rs: seq<Record>): seq<Line> {
    Header + GroupBlocks(rs, Groups(rs)) + [Close(0)]
  }

  /** The page `generate_bookmarks_html` returns for `rs`. */
  function Document(rs: seq<Record>): string {
    Flatten(DocLines(rs))
  }

  // ---- The generator, loop by loop ----
  //
  // The page under construction is kept as the lines written so far, `page`; each `+=` of
  // the source appends one line to it, and the text returned is `Flatten(page)`, the lines
  // concatenated in the order they were written.

  lemma LinkLinesSnoc(rs: seq<Record>, x: Record)
    ensures LinkLines(rs + [x]) == LinkLines(rs) + [Link(x)]
  {
    assert (rs + [x])[..|rs|] == rs;
  }

  lemma LinkStep(rs: seq<Record>, i: nat, g: string, c: Cell, l: Cell)
    requires i < |rs|
    ensures LinkLines(InLocation(rs[..i + 1], g, c, l)) ==
      LinkLines(InLocation(rs[..i], g, c, l)) +
      (if rs[i].group == g && rs[i].country == c && rs[i].location == l then [Link(rs[i])] else [])
  {
    assert rs[..i + 1] == rs[..i] + [rs[i]];
    InLocationSnoc(rs[..i], rs[i], g, c, l);
    var selected := InLocation(rs[..i], g, c, l);
    if rs[i].group == g && rs[i].country == c && rs[i].location == l {
      LinkLinesSnoc(selected, rs[i]);
    } else {
      assert InLocation(rs[..i + 1], g, c, l) == selected;
    }
  }

  /** The innermost loop: every record of the location, in input order, as a link. */
  method AppendLinks(filteredData: seq<Record>, group: string, country: Cell, location: Cell,
                     page: seq<Line>)
    returns (out: seq<Line>)
    ensures out == page + LinkLines(InLocation(filteredData, group, country, location))
  {
    out := page;
    for i := 0 to |filteredData|
      invariant out == page + LinkLines(InLocation(filteredData[..i], group, country, location))
    {
      var item := filteredData[i];
      ghost var links := LinkLines(InLocation(filteredData[..i], group, country, location));
      LinkStep(filteredData, i, group, country, location);
      if item.group == group && item.country == country && item.location == location {
        ConcatAssoc(page, links, [Link(item)]);
        out := out + [Link(item)];
      } else {
        assert links + [] == links;
      }
    }
    assert filteredData[..|filteredData|] == filteredData;
  }

  /** Writing a folder line by line after some blocks is appending the whole folder block. */
  lemma FolderAppend(before: seq<Line>, blocks: seq<Line>, heading: Line, open: Line,
                     body: seq<Line>, close: Line)
    ensures before + blocks + [heading] + [open] + body + [close] ==
            before + (blocks + ([heading, open] + body + [close]))
  {
  }

  /** Appending one location's folder to the blocks of the locations before it. */
  lemma LocationBlocksStep(rs: seq<Record>, g: string, c: Cell, ls: seq<Cell>, i: nat,
                           before: seq<Line>, out: seq<Line>)
    requires i < |ls|
    requires out == before + LocationBlocks(rs, g, c, ls[..i]) + [Folder(3, Show(ls[i]))] + [Open(3)]
                     + LinkLines(InLocation(rs, g, c, ls[i])) + [Close(3)]
    ensures out == before + LocationBlocks(rs, g, c, ls[..i + 1])
  {
    assert ls[..i + 1][..i] == ls[..i];
    FolderAppend(before, LocationBlocks(rs, g, c, ls[..i]), Folder(3, Show(ls[i])), Open(3),
                 LinkLines(InLocation(rs, g, c, ls[i])), Close(3));
  }

  /** The location loop of one country: a folder per location holding its links. */
  method AppendLocations(filteredData: seq<Record>, group: string, country: Cell, page: seq<Line>)
    returns (out: seq<Line>)
    ensures out == page + LocationBlocks(filteredData, group, country, Locations(filteredData, group, country))
  {
    var locations := Locations(filteredData, group, country);
    out := page;
    for i := 0 to |locations|
      invariant out == page + LocationBlocks(filteredData, group, country, locations[..i])
    {
      var location := locations[i];
      out := out + [Folder(3, Show(location))];
      out := out + [Open(3)];
      out := AppendLinks(filteredData, group, country, location, out);
      out := out + [Close(3)];
      LocationBlocksStep(filteredData, group, country, locations, i, page, out);
    }
    assert locations[..|locations|] == locations;
  }

  /** Appending one country's folder to the blocks of the countries before it. */
  lemma CountryBlocksStep(rs: seq<Record>, g: string, cs: seq<Cell>, i: nat,
                          before: seq<Line>, out: seq<Line>)
    requires i < |cs|
    requires out == before + CountryBlocks(rs, g, cs[..i]) + [Folder(2, Show(cs[i]))] + [Open(2)]
                     + LocationBlocks(rs, g, cs[i], Locations(rs, g, cs[i])) + [Close(2)]
    ensures out == before + CountryBlocks(rs, g, cs[..i + 1])
  {
    assert cs[..i + 1][..i] == cs[..i];
    FolderAppend(before, CountryBlocks(rs, g, cs[..i]), Folder(2, Show(cs[i])), Open(2),
                 LocationBlocks(rs, g, cs[i], Locations(rs, g, cs[i])), Close(2));
  }

  /** The country loop of one group: a folder per country holding its location folders. */
  method AppendCountries(filteredData: seq<Record>, group: string, page: seq<Line>)
    returns (out: seq<Line>)
    ensures out == page + CountryBlocks(filteredData, group, Countries(filteredData, group))
  {
    var countries := Countries(filteredData, group);
    out := page;
    for i := 0 to |countries|
      invariant out == page + CountryBlocks(filteredData, group, countries[..i])
    {
      var country := countries[i];
      out := out + [Folder(2, Show(country))];
      out := out + [Open(2)];
      out := AppendLocations(filteredData, group, country, out);
      out := out + [Close(2)];
      CountryBlocksStep(filteredData, group, countries, i, page, out);
    }
    assert countries[..|countries|] == countries;
  }

  /** Appending one group's folder to the blocks of the groups before it. */
  lemma GroupBlocksStep(rs: seq<Record>, gs: seq<string>, i: nat, page: seq<Line>)
    requires i < |gs|
    requires page == Header + GroupBlocks(rs, gs[..i]) + [Folder(1, gs[i])] + [Open(1)]
                      + CountryBlocks(rs, gs[i], Countries(rs, gs[i])) + [Close(1)]
    ensures page == Header + GroupBlocks(rs, gs[..i + 1])
  {
    assert gs[..i + 1][..i] == gs[..i];
    FolderAppend(Header, GroupBlocks(rs, gs[..i]), Folder(1, gs[i]), Open(1),
                 CountryBlocks(rs, gs[i], Countries(rs, gs[i])), Close(1));
  }

  /** `generate_bookmarks_html`: the header, a folder per group holding its country folders,
      and the closing line. */
  method GenerateBookmarksHtml(filteredData: seq<Record>) returns (html: string)
    ensures html == Document(filteredData)
  {
    var page := Header;
    var groups := Groups(filteredData);
    for i := 0 to |groups|
      invariant page == Header + GroupBlocks(filteredData, groups[..i])
    {
      var group := groups[i];
      page := page + [Folder(1, group)];
      page := page + [Open(1)];
      page := AppendCountries(filteredData, group, page);
      page := page + [Close(1)];
      GroupBlocksStep(filteredData, groups, i, page);
    }
    assert groups[..|groups|] == groups;
    page := page + [Close(0)];
    html := Flatten(page);
  }
}
