# HTML bookmark generator: a Dafny model of its filter and renderer

The application takes an uploaded inventory spreadsheet (`.xlsx`, `.xls` or `.csv`) and a
group name. It keeps the rows whose exporter-name columns mention one of three exporter
types (`exporter_aes`, `exporter_avayasbc`, `exporter_acm`), flattens each match into a
record, and writes a Netscape bookmark file. The file has one folder per group, per country
within it and per location within that, and holds one link per record to the exporter's web
console.

This project models those steps over an already-parsed table. They are:

- the upload gate `allowed_file`;
- the reader dispatch of `filter_exporters`;
- its three nested filter loops;
- the bookmark generator `generate_bookmarks_html`, with the constant `non_standard_url_map`.

The modules are:

- `Common` (`common.dfy`): `Option`, `Result` and the Python errors the code can raise
  (`IndexError`, `ValueError`, `KeyError`, `AttributeError`).
- `Text` (`text.dfy`): the string operations it relies on:
  - `rsplit('.', 1)`;
  - `split('_')[-1]`;
  - ASCII `lower()`;
  - substring search;
  - joining rendered pieces.
- `Upload` (`upload.dfy`): `allowed_file` and the choice of reader by extension.
- `Exporters` (`exporters.dfy`): the filter. `FilterTable` is the loop nest, written as
  three nested `for` loops that append to a list. It is proved equal to the specification
  function `Filter`. `Filter` is defined from `Hits`, the sequence of matching (token,
  column, row) triples in loop order. It has two error paths:
  - the AttributeError that pandas' `.str` raises on a present searched column holding no
    text at all;
  - the KeyError of a copied column the table lacks, raised at the first match.
- `Grouping` (`grouping.dfy`): the `set(...)` comprehensions and the filtering `if` of the
  generator, stated on sequences.
- `Bookmarks` (`bookmarks.dfy`): the generator. `GenerateBookmarksHtml` runs the four nested
  loops, appending `Line` values to a page. The last step renders each line as the source's
  f-string would and concatenates them. The method is proved to return `Document`, the
  rendering of the nested folder structure `DocLines`.
- `BookmarkProperties` (`bookmark_props.dfy`): what the page is:
  - its fixed frame;
  - balanced `<DL><p>`/`</DL><p>` nesting;
  - one folder per distinct key at each level;
  - one link per record;
  - the link targets and texts.
- `BookmarksAsWritten` (`as_written.dfy`): the generator as written, which reads the
  hostname under a key the records do not have (see Findings).

Python iterates a `set` in an unspecified order. The model fixes one order, the order in
which each key first appears in the records. All stated properties of the folders hold
whatever the order: the sets of folder titles, their absence of repeats, and the multiset
of linked records.

## Model

| member | source | states |
|---|---|---|
| Upload.AllowedFileIff | app.py:14-15 | a name is accepted iff it has a '.' and the text after its last '.', lower-cased, is xlsx, xls or csv; a name with no '.' is rejected |
| Upload.AllowedFileAccepts | app.py:14-15 | upper-case suffixes are accepted and only the last suffix counts (`inventory.XLSX`, `site.list.csv`) |
| Upload.AllowedFileRejects | app.py:14-15 | a name whose last suffix is not allowed is rejected even if an earlier one is (`data.csv.bak`) |
| Upload.ReaderFor | app.py:67-75 | the dispatch fails with IndexError when the path has no '.', and with ValueError("Unsupported file type") for any other unlisted extension |
| Upload.ReaderForAgreesWithAllowedFile | app.py:67-75 | the dispatch succeeds iff `allowed_file` accepts the path; it picks the CSV reader exactly for "csv" and the Excel reader exactly for "xlsx"/"xls", in any case |
| Exporters.Filter | app.py:78-99 | the filter raises only the `.str` AttributeError or the KeyError of the first absent copied column, and otherwise returns one record per hit |
| Exporters.Hits | app.py:82-89 | the hit list holds exactly the (token, present searched column, row whose non-empty cell contains the token) triples, in token-major, then column, then row order |
| Exporters.HitCount | app.py:82-89 | no triple is met twice: the hit list is as long as the set of matching triples |
| Exporters.Field | app.py:92-95 | reading a column of a row succeeds iff the table has that column and then gives the row's cell there; otherwise it raises KeyError naming the column |
| Exporters.MatchWithMissingColumnFails | app.py:89-97 | one match that the loops reach before any `.str` raises is enough for a missing Country, Location or IP Address column to make the filter raise KeyError |
| Exporters.FirstTextlessSpec | app.py:84-87 | a first searched column on which `.str` raises is found iff some searched column is present, has rows and holds no text at all, and the one found is such a column |
| Exporters.AccessorRaises | app.py:85-87 | reaching `.str` on a present column without text, before any earlier column raised and before any hit raised a KeyError, is the filter's AttributeError |
| Exporters.EmptyNameColumnFails | app.py:84-87 | a one-row table whose only searched column is empty makes the filter raise AttributeError, although nothing matched |
| Exporters.MakeRecord | app.py:90-97 | the record of one match fails iff Country, Location or IP Address is missing, naming the first missing one, and otherwise is the hit's record: the group, the token, the copied cells, the hostname or "Unknown" |
| Exporters.AppendMatchingRows | app.py:87-97 | the row loop appends the records of exactly this column's hits for this token, or returns the filter's KeyError |
| Exporters.AppendTokenMatches | app.py:84-97 | the column loop skips absent columns, raises the AttributeError at a present column without text, and appends the records of this token's hits in column order; any error it returns is the filter's |
| Exporters.FilterTable | app.py:81-99 | the loop nest returns exactly `Filter` of the table, failure included |
| Exporters.FilterExporters | app.py:65-99 | an unsupported or missing extension fails before any filtering; otherwise the result is the filter's |
| Exporters.FilterFailsIff | app.py:82-99 | the filter fails iff some present searched column has no text, or some row matches and a copied column is missing. Without a textless column the error is the KeyError of the first missing one of Country, Location, IP Address. With all three present it is the AttributeError. No match yields the AttributeError if a column is textless, and otherwise an empty list |
| Exporters.FilteredRecords | app.py:89-97 | one record per matching triple in hit order, each carrying the caller's group, the matched token, the copied cells, and the hostname or "Unknown" when that column is absent |
| Exporters.FilteredRecordsAreTagged | app.py:78-97 | every emitted record has the caller's group name and one of the three tokens as its type |
| Exporters.MatchInBothColumnsEmittedTwice | app.py:84-97 | a row matching a token in both searched columns yields two equal records |
| Grouping.KeysMembers | app.py:108 | a key is listed iff some record has it |
| Grouping.DistinctSpec | app.py:108 | the enumeration of a set has no repeats and the same members as the values it was built from |
| Grouping.SelectSpec | app.py:120-121 | the filtering `if` keeps exactly the records with the given key |
| Grouping.GroupingPreserves | app.py:108-121 | listing the selections for each distinct key one after another neither loses nor duplicates an element (multiset equality) |
| Text.LastPiece | app.py:122 | `split('_')[-1]` contains no '_', is the whole string when there is no '_', and is otherwise a suffix after some '_' |
| Text.LastPieceAfter | app.py:122 | the last piece of `before + "_" + after` (no '_' in `after`) is `after` |
| Bookmarks.Show | app.py:109-133 | an f-string writes a present cell as its text and a missing one as "nan"; a cell holding "nan" reads the same as a missing one |
| Bookmarks.Url | app.py:127-131 | the URL is "https://", the IP address, then the type's suffix from the map if it has one; the two branches at line 129 agree |
| Bookmarks.LinkText | app.py:122-125 | the link text is some '_'-free kind, a dash and the hostname, where the kind is the type itself when it has no '_' and otherwise a suffix after one of its '_' |
| Bookmarks.Render | app.py:102-139 | a header line is written as it is; every other line is four spaces per level of nesting (links at depth four), then a tag starting with '<', and ends with a newline |
| Bookmarks.AppendLinks | app.py:120-133 | the item loop appends one link line per record of the location, in input order |
| Bookmarks.AppendLocations | app.py:116-135 | the location loop appends one folder per distinct location of the country, each holding that location's links |
| Bookmarks.AppendCountries | app.py:112-136 | the country loop appends one folder per distinct country of the group, each holding its location folders |
| Bookmarks.GenerateBookmarksHtml | app.py:101-141 | the generator returns exactly `Document` of its input |
| BookmarkProperties.HeaderRendering | app.py:102-106 | the header lines render as the five fixed lines |
| BookmarkProperties.CloserRendering | app.py:139 | the final line renders as `</DL><p>\n` |
| BookmarkProperties.DocumentFrame | app.py:101-141 | every page is the five-line header, the group folders, then `</DL><p>\n`: it starts with the header and ends with the closer |
| BookmarkProperties.EmptyDocument | app.py:101-141 | for no records the page is exactly header plus closer |
| BookmarkProperties.DocumentNesting | app.py:106-139 | in the sequence of lines written, every `<DL><p>` line is closed by a `</DL><p>` line of its own level, folder headings sit at their level, links sit inside location folders, and the page ends at depth 0; opens equal closes. With `Render`, each line is indented by its depth |
| BookmarkProperties.GroupFolders | app.py:108-110 | the top-level folder titles are the distinct group names, each once, and a name is a title iff some record has it |
| BookmarkProperties.CountryFolders | app.py:112-114 | inside a group's folder, one folder per distinct country of that group's records, each once |
| BookmarkProperties.LocationFolders | app.py:116-118 | inside a country's folder, one folder per distinct location of the records of that group and country, each once |
| BookmarkProperties.LeafLinks | app.py:116-133 | a location folder links exactly the records with that group, country and location, in input order |
| BookmarkProperties.GroupingIsLossFree | app.py:108-133 | the records linked on the page are the input records as a multiset, so there are exactly as many links as records |
| BookmarkProperties.TokensHaveBareUrls | app.py:127-131 | none of the three filter tokens is a key of the URL map, so their links are "https://" plus the address |
| BookmarkProperties.SuffixesStartWithSeparator | app.py:8-12 | each suffix of the URL map starts with ':' (a port) or '/' (a path) |
| BookmarkProperties.UrlHost | app.py:127-131 | for any type, the host of the link's URL is the record's address (one with no ':' or '/'): a suffix from the map never extends the host |
| BookmarkProperties.FilteredLinksUseBareAddress | app.py:127-131 | every record a successful filter emits gets the bare-address URL |
| BookmarkProperties.ShortLabel | app.py:122-125 | a type `exporter_<kind>` (no '_' in kind) is labelled `<kind>-<hostname>` |
| BookmarkProperties.TokenLabels | app.py:122-125 | the three tokens are labelled `aes-`, `avayasbc-` and `acm-` followed by the hostname |
| BookmarksAsWritten.RecordField | app.py:90-97 | a record has exactly the six keys the filter writes; any other key raises KeyError for that key |
| BookmarksAsWritten.LinkTextByKey | app.py:125 | the link text fails with the KeyError of a key the records lack, and under 'Hostname' is `LinkText` |
| BookmarksAsWritten.LinkTextAsWritten | app.py:125 | as written, the link text always raises KeyError('Hostnames') |
| BookmarksAsWritten.FlattenByRecordKey | app.py:120-133 | reading 'Hostname', the lines are written exactly as `Flatten` writes them |
| BookmarksAsWritten.FlattenByMissingKey | app.py:120-133 | reading a key the records lack, writing fails iff some line is a link, with that key's KeyError, and otherwise equals `Flatten` |
| BookmarksAsWritten.DocumentAsWrittenFails | app.py:101-141 | as written, the generator raises KeyError('Hostnames') iff it is given at least one record; for none it returns header plus closer |
| BookmarksAsWritten.DocumentByRecordKey | app.py:101-141 | with the key corrected to 'Hostname', the generator returns `Document` |

## Left out

- The Flask routes `index`, `upload_file` and `download_file` (app.py:17-63, 144-155): HTTP
  handling, redirects and templates, which are I/O glue.
- Saving the upload under `/tmp/`, writing the HTML file and removing it. These are
  filesystem side effects.
- The exception handler in `upload_file` and concurrent requests. These are runtime
  concerns, not part of the logic.
- `app.run`.
- `pd.read_excel` and `pd.read_csv`. `Upload.ReaderFor` models only which reader is chosen.
  The filter takes the table the reader produced as a parameter.
- pandas cell typing. Every cell is an optional string, and `None` stands for a missing
  (NaN) value, which an f-string writes as "nan". Numeric cells and their formatting are not
  modelled. So the `.str` AttributeError is modelled only for a searched column whose every
  cell is missing. A column of numbers, which pandas also refuses, is not modelled.
- The grouping compares cells by value, so records with missing countries share one folder
  and are linked in it. Python's NaN is unequal to itself, so in Python the record shows up
  differently:
  - a record with a missing Country gets a country folder ("nan"), but the comparison at
    app.py:116 excludes it, so it has no location folder and no link;
  - a record with a missing Location gets a location folder, but the test at app.py:121
    excludes it, so it has no link.

  The properties about folders and links hold only for records whose Country and Location
  are present. This covers BookmarkProperties.GroupingIsLossFree and
  BookmarksAsWritten.DocumentAsWrittenFails in particular.
- HTML escaping. Group names, folder titles and hostnames go into the page unescaped
  (app.py:109, 113, 117, 125). A title holding `</DL><p>` therefore breaks the nesting of
  the text, although the sequence of lines stays nested as
  BookmarkProperties.DocumentNesting states.
- `str.contains` matches a regular expression. The tokens contain only letters and '_', so
  the model uses plain case-sensitive substring search. Arbitrary patterns are not modelled.
- `Text.Lower` lower-cases ASCII letters only. Python's `lower()` also maps other Unicode
  letters. This affects only extensions with non-ASCII letters, which no allowed extension
  has.
- Python sets iterate in an unspecified order. The model fixes first-appearance order, and
  every folder property is stated independently of that order.
- Bookmarks.GenerateBookmarksHtml: the page is built as a list of lines and rendered once at
  the end, rather than by repeated string concatenation. Both give the same string, by
  `FlattenAppend`. The method's results use the corrected 'Hostname' key; the source's
  behaviour is `BookmarksAsWritten.DocumentAsWritten`.

## Findings

| source | as written | input that shows it | evidently intended | confidence | as-written member | corrected member |
|---|---|---|---|---|---|---|
| app.py:125 | the link text reads `item['Hostnames']`, but the records the filter builds (app.py:90-97) have the key 'Hostname'; the lookup raises KeyError | any record list with a record whose Country and Location are present, e.g. one record of group "G" with type `exporter_aes` | the link text is the short type, a dash and `item['Hostname']` | high, not executed | BookmarksAsWritten.DocumentAsWrittenFails | BookmarksAsWritten.DocumentByRecordKey |
