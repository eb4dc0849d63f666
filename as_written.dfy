/** The bookmark generator as app.py writes it: the link text reads the key 'Hostnames', which
    no record the filter builds has. Each record is a dictionary with six keys, so the lookup
    raises a KeyError at the first link line, and any page with a link in it is never produced.
    `Bookmarks.LinkText` reads the 'Hostname' key instead, and the rest of the model uses it. */
module BookmarksAsWritten {
  import opened Common
  import opened Exporters
  import opened Bookmarks
  import opened BookmarkProperties

  /** The keys of the dictionaries `filter_exporters` appends. */
  const RecordKeys: set<string> :=
    {"Group Name", "Country", "Location", "Exporter Type", "IP Address", "Hostname"}

  /** `item[key]` on a record: its value under one of the six keys, a KeyError otherwise. */
  function RecordField(r: Record, key: string): (res: Result<Cell, Error>)
    ensures res.Failure? <==> key !in RecordKeys
    ensures res.Failure? ==> res.error == KeyError(key)
    ensures key == "Hostname" ==> res == Success(r.hostname)
  {
    if key == "Group Name" then Success(Some(r.group))
    else if key == "Country" then Success(r.country)
    else if key == "Location" then Success(r.location)
    else if key == "Exporter Type" then Success(Some(r.exporterType))
    else if key == "IP Address" then Success(r.ipAddress)
    else if key == "Hostname" then Success(r.hostname)
    else Failure(KeyError(key))
  }

  /** The link text `f"{exporter_type}-{item[key]}"`, for the key the hostname is read
      under: app.py reads 'Hostnames'; the filter writes 'Hostname'. */
  function LinkTextByKey(r: Record, key: string): (res: Result<string, Error>)
    ensures key !in RecordKeys ==> res == Failure(KeyError(key))
    ensures key == "Hostname" ==> res == Success(LinkText(r))
  {
    var hostname :- RecordField(r, key);
    Success(Label(r.exporterType, hostname))
  }

  /** The link text as written never gets past its lookup. */
  function LinkTextAsWritten(r: Record): (res: Result<string, Error>)
    ensures res == Failure(KeyError("Hostnames"))
  {
    LinkTextByKey(r, "Hostnames")
  }

  /** One line, reading the hostname under `key`: only a link line reads the record, and its
      text is computed before its URL. */
  function RenderByKey(line: Line, key: string): Result<string, Error> {
    match line
    case Link(r) =>
      var text :- LinkTextByKey(r, key);
      Success(Indent(4) + Anchor(Url(r), text))
    case _ => Success(Render(line))
  }

  /** Reading a key the records lack, exactly the link lines raise. */
  lemma RenderByMissingKey(line: Line, key: string)
    requires key !in RecordKeys
    ensures RenderByKey(line, key).Failure? <==> line.Link?
    ensures RenderByKey(line, key).Failure? ==> RenderByKey(line, key).error == KeyError(key)
    ensures RenderByKey(line, key).Success? ==> RenderByKey(line, key).value == Render(line)
  {
  }

  /** The lines written one after another, stopping at the first line that raises. */
  function FlattenByKey(lines: seq<Line>, key: string): Result<string, Error> {
    if lines == [] then Success("")
    else
      var before :- FlattenByKey(lines[..|lines| - 1], key);
      var last :- RenderByKey(lines[|lines| - 1], key);
      Success(before + last)
  }

  /** Reading the key the records have, the lines are written exactly as `Flatten` writes them. */
  lemma {:induction false} FlattenByRecordKey(lines: seq<Line>)
    ensures FlattenByKey(lines, "Hostname") == Success(Flatten(lines))
  {
    if lines != [] {
      var init, last := lines[..|lines| - 1], lines[|lines| - 1];
      FlattenByRecordKey(init);
      assert lines == init + [last];
      FlattenSnoc(init, last);
    }
  }

  /** Reading a key the records lack, writing fails exactly when one of the lines is a link,
      always with that key's KeyError, and otherwise writes what `Flatten` writes. */
  lemma {:induction false} FlattenByMissingKey(lines: seq<Line>, key: string)
    requires key !in RecordKeys
    ensures FlattenByKey(lines, key).Failure? <==> LinkedRecords(lines) != []
    ensures FlattenByKey(lines, key).Failure? ==> FlattenByKey(lines, key).error == KeyError(key)
    ensures FlattenByKey(lines, key).Success? ==> FlattenByKey(lines, key).value == Flatten(lines)
  {
    if lines != [] {
      var init, last := lines[..|lines| - 1], lines[|lines| - 1];
      FlattenByMissingKey(init, key);
      assert lines == init + [last];
      FlattenSnoc(init, last);
      RenderByMissingKey(last, key);
      LinkedAppend(init, [last]);
      assert [last][..0] == [];
    }
  }

  /** `generate_bookmarks_html` as written. */
  function DocumentAsWritten(rs: seq<Record>): Result<string, Error> {
    FlattenByKey(DocLines(rs), "Hostnames")
  }

  /** As written, the generator raises KeyError('Hostnames') for every non-empty input, and
      only the empty input yields a page: the bare frame. */
  lemma DocumentAsWrittenFails(rs: seq<Record>)
    ensures DocumentAsWritten(rs).Failure? <==> rs != []
    ensures rs != [] ==> DocumentAsWritten(rs) == Failure(KeyError("Hostnames"))
    ensures rs == [] ==> DocumentAsWritten(rs) == Success(HeaderText + Closer)
  {
    FlattenByMissingKey(DocLines(rs), "Hostnames");
    GroupingIsLossFree(rs);
    if rs == [] {
      EmptyDocument();
    }
  }

  /** With the key the records have, the generator writes `Document`. */
  lemma DocumentByRecordKey(rs: seq<Record>)
    ensures FlattenByKey(DocLines(rs), "Hostname") == Success(Document(rs))
  {
    FlattenByRecordKey(DocLines(rs));
  }
}
