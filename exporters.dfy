/** `filter_exporters`: pick the rows of an inventory table whose exporter-name columns
    mention one of the fixed exporter tokens and flatten each match into a record. */
module Exporters {
  import opened Common
  import opened Text
  import opened Upload

  /** One cell of the parsed table: a string, or None for an empty (NaN) cell. */
  type Cell = Option<string>

  /** One row, by column name. */
  type Row = map<string, Cell>

  /** The table a reader produced: the column names it has and its rows, in file order. */
  datatype Table = Table(columns: set<string>, rows: seq<Row>)

  /** One flattened match, with the keys `filter_exporters` gives its dictionaries. */
  datatype Record = Record(
    group: string,          // 'Group Name'
    country: Cell,          // 'Country'
    location: Cell,         // 'Location'
    exporterType: string,   // 'Exporter Type'
    ipAddress: Cell,        // 'IP Address'
    hostname: Cell)         // 'Hostname'

  /** The exporter tokens searched for, in search order. */
  const Tokens: seq<string> := ["exporter_aes", "exporter_avayasbc", "exporter_acm"]

  /** The free-text columns searched, in search order. */
  const NameColumns: seq<string> := ["Exporter_name_app", "Exporter_name_app_2"]

  /** The value of `column` in `row`; a row lacking the column reads as an empty cell. */
  function CellOf(row: Row, column: string): Cell {
    if column in row then row[column] else None
  }

  /** `str.contains(token, na=False)` on one cell: an empty cell never matches. The tokens
      hold only letters and '_', so the regular expression is a plain substring. */
  predicate Matches(row: Row, column: string, token: string) {
    match CellOf(row, column)
    case None => false
    case Some(v) => Contains(v, token)
  }

  /** A match of token `Tokens[token]` in column `NameColumns[column]` of row `row`. */
  datatype Hit = Hit(token: nat, column: nat, row: nat)

  /** `h` names a present searched column whose cell in that row contains the token. */
  predicate IsHit(t: Table, h: Hit) {
    && h.token < |Tokens|
    && h.column < |NameColumns|
    && h.row < |t.rows|
    && NameColumns[h.column] in t.columns
    && Matches(t.rows[h.row], NameColumns[h.column], Tokens[h.token])
  }

  /** Token-major, then column, then row order: the order of the three nested loops. */
  predicate Before(a: Hit, b: Hit) {
    || a.token < b.token
    || (a.token == b.token && a.column < b.column)
    || (a.token == b.token && a.column == b.column && a.row < b.row)
  }

  predicate InLoopOrder(hs: seq<Hit>) {
    forall i, j :: 0 <= i < j < |hs| ==> Before(hs[i], hs[j])
  }

  lemma InLoopOrderAppend(a: seq<Hit>, b: seq<Hit>)
    requires InLoopOrder(a) && InLoopOrder(b)
    requires forall x, y :: x in a && y in b ==> Before(x, y)
    ensures InLoopOrder(a + b)
  {
    forall i, j | 0 <= i < j < |a + b| ensures Before((a + b)[i], (a + b)[j]) {
      if j < |a| {
        assert (a + b)[i] == a[i] && (a + b)[j] == a[j];
      } else if i < |a| {
        assert (a + b)[i] in a && (a + b)[j] in b;
      } else {
        assert (a + b)[i] == b[i - |a|] && (a + b)[j] == b[j - |a|];
      }
    }
  }

  lemma InLoopOrderSnoc(a: seq<Hit>, x: Hit)
    requires InLoopOrder(a)
    requires forall y :: y in a ==> Before(y, x)
    ensures InLoopOrder(a + [x])
  {
    forall i, j | 0 <= i < j < |a| + 1 ensures Before((a + [x])[i], (a + [x])[j]) {
      assert (a + [x])[i] == a[i];
      if j < |a| {
        assert (a + [x])[j] == a[j];
      }
    }
  }

  /** The hits of token `ti` in column `ci` among the first `n` rows. */
  function RowHits(t: Table, ti: nat, ci: nat, n: nat): seq<Hit>
    requires ti < |Tokens| && ci < |NameColumns| && n <= |t.rows|
  {
    if n == 0 then []
    else
      RowHits(t, ti, ci, n - 1) +
      if NameColumns[ci] in t.columns && Matches(t.rows[n - 1], NameColumns[ci], Tokens[ti])
      then [Hit(ti, ci, n - 1)] else []
  }

  /** The hits of token `ti` in the first `m` searched columns, skipping absent columns. */
  function ColumnHits(t: Table, ti: nat, m: nat): seq<Hit>
    requires ti < |Tokens| && m <= |NameColumns|
  {
    if m == 0 then []
    else
      ColumnHits(t, ti, m - 1) +
      if NameColumns[m - 1] in t.columns then RowHits(t, ti, m - 1, |t.rows|) else []
  }

  /** The hits of the first `k` tokens. */
  function TokenHits(t: Table, k: nat): seq<Hit>
    requires k <= |Tokens|
  {
    if k == 0 then [] else TokenHits(t, k - 1) + ColumnHits(t, k - 1, |NameColumns|)
  }

  lemma {:induction false} RowHitsAreMatches(t: Table, ti: nat, ci: nat, n: nat)
    requires ti < |Tokens| && ci < |NameColumns| && n <= |t.rows|
    ensures forall h :: h in RowHits(t, ti, ci, n) <==> h.token == ti && h.column == ci && h.row < n && IsHit(t, h)
  {
    if n > 0 {
      var prev := RowHits(t, ti, ci, n - 1);
      RowHitsAreMatches(t, ti, ci, n - 1);
      var last := Hit(ti, ci, n - 1);
      if NameColumns[ci] in t.columns && Matches(t.rows[n - 1], NameColumns[ci], Tokens[ti]) {
        assert RowHits(t, ti, ci, n) == prev + [last];
        assert IsHit(t, last);
      } else {
        assert RowHits(t, ti, ci, n) == prev;
        assert !IsHit(t, last);
      }
    }
  }

  lemma {:induction false} RowHitsInOrder(t: Table, ti: nat, ci: nat, n: nat)
    requires ti < |Tokens| && ci < |NameColumns| && n <= |t.rows|
    ensures InLoopOrder(RowHits(t, ti, ci, n))
  {
    if n > 0 {
      var prev := RowHits(t, ti, ci, n - 1);
      RowHitsInOrder(t, ti, ci, n - 1);
      RowHitsAreMatches(t, ti, ci, n - 1);
      var last := Hit(ti, ci, n - 1);
      if NameColumns[ci] in t.columns && Matches(t.rows[n - 1], NameColumns[ci], Tokens[ti]) {
        assert RowHits(t, ti, ci, n) == prev + [last];
        forall x | x in prev ensures Before(x, last) {
        }
        InLoopOrderSnoc(prev, last);
      } else {
        assert RowHits(t, ti, ci, n) == prev;
      }
    }
  }

  lemma {:induction false} ColumnHitsAreMatches(t: Table, ti: nat, m: nat)
    requires ti < |Tokens| && m <= |NameColumns|
    ensures forall h :: h in ColumnHits(t, ti, m) <==> h.token == ti && h.column < m && IsHit(t, h)
  {
    if m > 0 {
      var prev := ColumnHits(t, ti, m - 1);
      ColumnHitsAreMatches(t, ti, m - 1);
      if NameColumns[m - 1] in t.columns {
        var here := RowHits(t, ti, m - 1, |t.rows|);
        assert ColumnHits(t, ti, m) == prev + here;
        RowHitsAreMatches(t, ti, m - 1, |t.rows|);
      } else {
        assert ColumnHits(t, ti, m) == prev;
        forall h: Hit | h.column == m - 1 ensures !IsHit(t, h) {
        }
      }
    }
  }

  lemma {:induction false} ColumnHitsInOrder(t: Table, ti: nat, m: nat)
    requires ti < |Tokens| && m <= |NameColumns|
    ensures InLoopOrder(ColumnHits(t, ti, m))
  {
    if m > 0 {
      var prev := ColumnHits(t, ti, m - 1);
      ColumnHitsInOrder(t, ti, m - 1);
      if NameColumns[m - 1] in t.columns {
        var here := RowHits(t, ti, m - 1, |t.rows|);
        assert ColumnHits(t, ti, m) == prev + here;
        ColumnHitsAreMatches(t, ti, m - 1);
        RowHitsAreMatches(t, ti, m - 1, |t.rows|);
        RowHitsInOrder(t, ti, m - 1, |t.rows|);
        forall x, y | x in prev && y in here ensures Before(x, y) {
        }
        InLoopOrderAppend(prev, here);
      } else {
        assert ColumnHits(t, ti, m) == prev;
      }
    }
  }

  lemma {:induction false} TokenHitsAreMatches(t: Table, k: nat)
    requires k <= |Tokens|
    ensures forall h :: h in TokenHits(t, k) <==> h.token < k && IsHit(t, h)
    ensures InLoopOrder(TokenHits(t, k))
  {
    if k > 0 {
      TokenHitsAreMatches(t, k - 1);
      ColumnHitsAreMatches(t, k - 1, |NameColumns|);
      ColumnHitsInOrder(t, k - 1, |NameColumns|);
      InLoopOrderAppend(TokenHits(t, k - 1), ColumnHits(t, k - 1, |NameColumns|));
    }
  }

  lemma ConcatAssoc<T>(a: seq<T>, b: seq<T>, c: seq<T>)
    ensures (a + b) + c == a + (b + c)
  {
  }

  /** Every match, each once, in the order the loops meet them. */
  function Hits(t: Table): (r: seq<Hit>)
    ensures forall h :: h in r <==> IsHit(t, h)
    ensures InLoopOrder(r)
  {
    TokenHitsAreMatches(t, |Tokens|);
    TokenHits(t, |Tokens|)
  }

  /** The set of (token, column, row) triples that match, independent of any order. */
  ghost function HitSet(t: Table): set<Hit> {
    set ti, ci, ri | 0 <= ti < |Tokens| && 0 <= ci < |NameColumns| && 0 <= ri < |t.rows| &&
                     IsHit(t, Hit(ti, ci, ri)) :: Hit(ti, ci, ri)
  }

  /** `row.get('Hostname', 'Unknown')`: the cell when the column exists, else "Unknown". */
  function HostnameOf(t: Table, row: Row): Cell {
    if "Hostname" in t.columns then CellOf(row, "Hostname") else Some("Unknown")
  }

  /** The record emitted for one hit. */
  function RecordFor(t: Table, groupName: string, h: Hit): Record
    requires h.token < |Tokens| && h.row < |t.rows|
  {
    var row := t.rows[h.row];
    Record(groupName, CellOf(row, "Country"), CellOf(row, "Location"), Tokens[h.token],
           CellOf(row, "IP Address"), HostnameOf(t, row))
  }

  /** The records for a sequence of hits, in the same order. */
  function RecordsFor(t: Table, groupName: string, hs: seq<Hit>): (rs: seq<Record>)
    requires forall h :: h in hs ==> h.token < |Tokens| && h.row < |t.rows|
    ensures |rs| == |hs|
  {
    if hs == [] then []
    else RecordsFor(t, groupName, hs[..|hs| - 1]) + [RecordFor(t, groupName, hs[|hs| - 1])]
  }

  /** `row['Country']`, `row['Location']` and `row['IP Address']` raise KeyError when the
      table lacks the column; this is the first such column in evaluation order. */
  function MissingRequired(t: Table): Option<string> {
    if "Country" !in t.columns then Some("Country")
    else if "Location" !in t.columns then Some("Location")
    else if "IP Address" !in t.columns then Some("IP Address")
    else None
  }

  /** `df[col].str` raises AttributeError when the column holds no text: pandas reads a
      column whose every cell is empty as floating-point NaN. A table without rows keeps its
      columns as text. */
  predicate Textless(t: Table, column: string) {
    |t.rows| > 0 && forall i :: 0 <= i < |t.rows| ==> CellOf(t.rows[i], column).None?
  }

  /** The message pandas gives when `.str` meets a column without text. */
  const StrAccessorMessage: string := "Can only use .str accessor with string values!"

  /** Searched column `NameColumns[c]` is present and `.str` fails on it. */
  predicate StrFails(t: Table, c: nat) {
    c < |NameColumns| && NameColumns[c] in t.columns && Textless(t, NameColumns[c])
  }

  /** The first of the first `m` searched columns on which `.str` fails. */
  function FirstTextless(t: Table, m: nat): (r: Option<nat>)
    requires m <= |NameColumns|
    ensures r.Some? ==> r.value < m
  {
    if m == 0 then None
    else if FirstTextless(t, m - 1).Some? then FirstTextless(t, m - 1)
    else if StrFails(t, m - 1) then Some(m - 1)
    else None
  }

  lemma {:induction false} FirstTextlessSpec(t: Table, m: nat)
    requires m <= |NameColumns|
    ensures FirstTextless(t, m).None? <==> forall c: nat :: c < m ==> !StrFails(t, c)
    ensures FirstTextless(t, m).Some? ==> StrFails(t, FirstTextless(t, m).value)
  {
    if m > 0 {
      FirstTextlessSpec(t, m - 1);
    }
  }

  /** Once found, the first textless column stays the first as more columns are looked at. */
  lemma {:induction false} FirstTextlessStays(t: Table, m: nat, n: nat)
    requires m <= n <= |NameColumns| && FirstTextless(t, m).Some?
    ensures FirstTextless(t, n) == FirstTextless(t, m)
  {
    if m < n {
      FirstTextlessStays(t, m, n - 1);
    }
  }

  /** A textless column found among `n` columns but not among the first `m` comes after them. */
  lemma {:induction false} FirstTextlessLater(t: Table, m: nat, n: nat)
    requires m <= n <= |NameColumns| && FirstTextless(t, m).None? && FirstTextless(t, n).Some?
    ensures m <= FirstTextless(t, n).value
  {
    if m < n && FirstTextless(t, n - 1).Some? {
      FirstTextlessLater(t, m, n - 1);
    }
  }

  /** The loops get past `df[col].str` at token `ti`, column `ci`: the accessor raises on the
      first textless column, at the first token, before any row of it is read. */
  predicate PastAccessor(t: Table, ti: nat, ci: nat) {
    match FirstTextless(t, |NameColumns|)
    case None => true
    case Some(c) => ti == 0 && ci < c
  }

  /** The loops of `filter_exporters` on an already-read table, which stop at the first
      exception: the AttributeError of the first searched column without text, unless a hit
      in an earlier column has already raised the KeyError of an absent copied column; that
      KeyError at the first hit; or else the records of all hits. */
  function Filter(t: Table, groupName: string): (r: Result<seq<Record>, Error>)
    ensures r.Failure? ==>
      r.error == AttributeError(StrAccessorMessage) ||
      (MissingRequired(t).Some? && r.error == KeyError(MissingRequired(t).value))
    ensures r.Success? ==> |r.value| == |Hits(t)|
  {
    var hits := Hits(t);
    var textless := FirstTextless(t, |NameColumns|);
    if textless.Some? && !(MissingRequired(t).Some? && ColumnHits(t, 0, textless.value) != []) then
      Failure(AttributeError(StrAccessorMessage))
    else if hits != [] && MissingRequired(t).Some? then Failure(KeyError(MissingRequired(t).value))
    else Success(RecordsFor(t, groupName, hits))
  }

  /** `row[name]` on a pandas row: the cell when the table has the column, else KeyError. */
  function Field(t: Table, row: Row, name: string): (r: Result<Cell, Error>)
    ensures r.Success? <==> name in t.columns
    ensures r.Success? ==> r.value == CellOf(row, name)
    ensures r.Failure? ==> r.error == KeyError(name)
  {
    if name in t.columns then Success(CellOf(row, name)) else Failure(KeyError(name))
  }

  /** A single match the loops reach is enough for a missing copied column to make the
      filter fail. */
  lemma MatchWithMissingColumnFails(t: Table, groupName: string, h: Hit)
    requires IsHit(t, h) && MissingRequired(t).Some? && PastAccessor(t, h.token, h.column)
    ensures Filter(t, groupName) == Failure(KeyError(MissingRequired(t).value))
  {
    assert h in Hits(t);
    var textless := FirstTextless(t, |NameColumns|);
    if textless.Some? {
      ColumnHitsAreMatches(t, 0, textless.value);
      assert h in ColumnHits(t, 0, textless.value);
    }
  }

  /** The records of all hits so far, and the promise that none of them raised. */
  ghost predicate Collected(t: Table, groupName: string, done: seq<Hit>, filtered: seq<Record>) {
    && (forall h :: h in done ==> h.token < |Tokens| && h.row < |t.rows|)
    && filtered == RecordsFor(t, groupName, done)
    && (done != [] ==> MissingRequired(t).None?)
  }

  /** Collecting one more hit, once the copied columns are known to be present. */
  lemma CollectedSnoc(t: Table, groupName: string, done: seq<Hit>, filtered: seq<Record>, h: Hit)
    requires Collected(t, groupName, done, filtered)
    requires h.token < |Tokens| && h.row < |t.rows| && MissingRequired(t).None?
    ensures Collected(t, groupName, done + [h], filtered + [RecordFor(t, groupName, h)])
  {
    assert (done + [h])[..|done|] == done;
  }

  /** The dictionary appended for one match: the caller's group name, the matched token and
      the row's cells, reading Country, Location and IP Address in that order, the first
      absent one raising KeyError. */
  method MakeRecord(t: Table, groupName: string, h: Hit) returns (res: Result<Record, Error>)
    requires h.token < |Tokens| && h.row < |t.rows|
    ensures res.Failure? <==> MissingRequired(t).Some?
    ensures res.Failure? ==> res.error == KeyError(MissingRequired(t).value)
    ensures res.Success? ==> res.value == RecordFor(t, groupName, h)
  {
    var row := t.rows[h.row];
    var country :- Field(t, row, "Country");
    var location :- Field(t, row, "Location");
    var ipAddress :- Field(t, row, "IP Address");
    var hostname := HostnameOf(t, row);
    return Success(Record(groupName, country, location, Tokens[h.token], ipAddress, hostname));
  }

  /** The innermost loop of `filter_exporters`: append one record per row whose cell in
      column `NameColumns[ci]` contains token `Tokens[ti]`, raising KeyError on the first such
      row when a copied column is absent. */
  method AppendMatchingRows(t: Table, groupName: string, ti: nat, ci: nat,
                            filtered: seq<Record>, ghost done: seq<Hit>)
    returns (res: Result<seq<Record>, Error>)
    requires ti < |Tokens| && ci < |NameColumns| && NameColumns[ci] in t.columns
    requires PastAccessor(t, ti, ci)
    requires Collected(t, groupName, done, filtered)
    ensures res.Failure? ==> res == Filter(t, groupName)
    ensures res.Success? ==> Collected(t, groupName, done + RowHits(t, ti, ci, |t.rows|), res.value)
  {
    var exporter, col := Tokens[ti], NameColumns[ci];
    var acc := filtered;
    ghost var seen := done;
    for ri := 0 to |t.rows|
      invariant seen == done + RowHits(t, ti, ci, ri)
      invariant Collected(t, groupName, seen, acc)
    {
      var row := t.rows[ri];
      if Matches(row, col, exporter) {
        var h := Hit(ti, ci, ri);
        if MissingRequired(t).Some? {
          MatchWithMissingColumnFails(t, groupName, h);
        }
        var record :- MakeRecord(t, groupName, h);
        CollectedSnoc(t, groupName, seen, acc, h);
        assert RowHits(t, ti, ci, ri + 1) == RowHits(t, ti, ci, ri) + [h];
        ConcatAssoc(done, RowHits(t, ti, ci, ri), [h]);
        seen := seen + [h];
        acc := acc + [record];
      } else {
        assert RowHits(t, ti, ci, ri + 1) == RowHits(t, ti, ci, ri) + [];
      }
    }
    return Success(acc);
  }

  /** `.str` raising on column `ci`, when no earlier column did and none of the hits met so
      far raised, is the outcome of the filter. */
  lemma AccessorRaises(t: Table, groupName: string, ti: nat, ci: nat, seen: seq<Hit>)
    requires ti < |Tokens| && ci < |NameColumns| && FirstTextless(t, ci).None? && StrFails(t, ci)
    requires ti > 0 ==> FirstTextless(t, |NameColumns|).None?
    requires seen == TokenHits(t, ti) + ColumnHits(t, ti, ci)
    requires seen != [] ==> MissingRequired(t).None?
    ensures Filter(t, groupName) == Failure(AttributeError(StrAccessorMessage))
  {
    assert FirstTextless(t, ci + 1) == Some(ci);
    FirstTextlessStays(t, ci + 1, |NameColumns|);
    assert seen == ColumnHits(t, 0, ci);
  }

  /** Getting past `.str` on a column that has text or is absent. */
  lemma PastTextColumn(t: Table, ti: nat, ci: nat)
    requires ci < |NameColumns| && FirstTextless(t, ci).None? && !StrFails(t, ci)
    requires ti > 0 ==> FirstTextless(t, |NameColumns|).None?
    ensures FirstTextless(t, ci + 1).None? && PastAccessor(t, ti, ci)
  {
    if FirstTextless(t, |NameColumns|).Some? {
      FirstTextlessLater(t, ci + 1, |NameColumns|);
    }
  }

  /** The middle loop of `filter_exporters`: for token `Tokens[ti]`, scan each searched
      column the table has, in order, raising AttributeError at a column without text. */
  method AppendTokenMatches(t: Table, groupName: string, ti: nat, filtered: seq<Record>, ghost done: seq<Hit>)
    returns (res: Result<seq<Record>, Error>)
    requires ti < |Tokens| && done == TokenHits(t, ti)
    requires ti > 0 ==> FirstTextless(t, |NameColumns|).None?
    requires Collected(t, groupName, done, filtered)
    ensures res.Failure? ==> res == Filter(t, groupName)
    ensures res.Success? ==> FirstTextless(t, |NameColumns|).None?
    ensures res.Success? ==> Collected(t, groupName, done + ColumnHits(t, ti, |NameColumns|), res.value)
  {
    var acc := filtered;
    ghost var seen := done;
    for ci := 0 to |NameColumns|
      invariant FirstTextless(t, ci).None?
      invariant seen == done + ColumnHits(t, ti, ci)
      invariant Collected(t, groupName, seen, acc)
    {
      var col := NameColumns[ci];
      if col in t.columns {
        if Textless(t, col) {
          AccessorRaises(t, groupName, ti, ci, seen);
          return Failure(AttributeError(StrAccessorMessage));
        }
        PastTextColumn(t, ti, ci);
        acc :- AppendMatchingRows(t, groupName, ti, ci, acc, seen);
        ConcatAssoc(done, ColumnHits(t, ti, ci), RowHits(t, ti, ci, |t.rows|));
        seen := seen + RowHits(t, ti, ci, |t.rows|);
      } else {
        PastTextColumn(t, ti, ci);
        assert ColumnHits(t, ti, ci + 1) == ColumnHits(t, ti, ci) + [];
      }
    }
    return Success(acc);
  }

  /** The outer loop of `filter_exporters`, over the tokens, on an already-read table. */
  method FilterTable(t: Table, groupName: string) returns (res: Result<seq<Record>, Error>)
    ensures res == Filter(t, groupName)
  {
    var filtered: seq<Record> := [];
    ghost var done: seq<Hit> := [];
    for ti := 0 to |Tokens|
      invariant done == TokenHits(t, ti)
      invariant ti > 0 ==> FirstTextless(t, |NameColumns|).None?
      invariant Collected(t, groupName, done, filtered)
    {
      filtered :- AppendTokenMatches(t, groupName, ti, filtered, done);
      done := done + ColumnHits(t, ti, |NameColumns|);
    }
    return Success(filtered);
  }

  /** `filter_exporters(filepath, group_name)`: the extension dispatch, which raises before
      any filtering, then the filter. `t` is the table the selected reader returned. */
  method FilterExporters(path: string, t: Table, groupName: string) returns (res: Result<seq<Record>, Error>)
    ensures ReaderFor(path).Failure? ==> res == Failure(ReaderFor(path).error)
    ensures ReaderFor(path).Success? ==> res == Filter(t, groupName)
  {
    var reader := ReaderFor(path);
    if reader.Failure? {
      return Failure(reader.error);
    }
    res := FilterTable(t, groupName);
  }

  // ---- Properties of the filter ----

  lemma {:induction false} DistinctCard<T>(s: seq<T>)
    requires NoDuplicates(s)
    ensures |set x | x in s| == |s|
  {
    if s != [] {
      var init := s[..|s| - 1];
      assert NoDuplicates(init);
      DistinctCard(init);
      assert s == init + [s[|s| - 1]];
      assert s[|s| - 1] !in init;
      assert (set x | x in s) == (set x | x in init) + {s[|s| - 1]};
    }
  }

  /** There is one hit per matching (token, column, row) triple: no triple is met twice. */
  lemma HitCount(t: Table)
    ensures |Hits(t)| == |HitSet(t)|
  {
    var hs := Hits(t);
    assert NoDuplicates(hs) by {
      forall i, j | 0 <= i < j < |hs| ensures hs[i] != hs[j] {
        assert Before(hs[i], hs[j]);
      }
    }
    DistinctCard(hs);
    assert (set x | x in hs) == HitSet(t) by {
      forall h | IsHit(t, h) ensures h in HitSet(t) {
        assert h == Hit(h.token, h.column, h.row);
      }
    }
  }

  lemma {:induction false} RecordsForAt(t: Table, groupName: string, hs: seq<Hit>, k: nat)
    requires forall h :: h in hs ==> h.token < |Tokens| && h.row < |t.rows|
    requires k < |hs|
    ensures |RecordsFor(t, groupName, hs)| == |hs|
    ensures RecordsFor(t, groupName, hs)[k] == RecordFor(t, groupName, hs[k])
  {
    if k < |hs| - 1 {
      RecordsForAt(t, groupName, hs[..|hs| - 1], k);
    } else if |hs| > 1 {
      RecordsForAt(t, groupName, hs[..|hs| - 1], 0);
    }
  }

  /** The filter fails exactly when a searched column the table has holds no text, or when
      some row matches and a copied column is absent. Without a textless column the error is
      the KeyError naming the first absent one of Country, Location and IP Address; with all
      copied columns present it is the AttributeError. Zero matches is the AttributeError
      when a searched column is textless, and otherwise the empty list. */
  lemma FilterFailsIff(t: Table, groupName: string)
    ensures Filter(t, groupName).Failure? <==>
      (exists c: nat :: StrFails(t, c)) ||
      (HitSet(t) != {} && !("Country" in t.columns && "Location" in t.columns && "IP Address" in t.columns))
    ensures Filter(t, groupName).Failure? && (forall c: nat :: !StrFails(t, c)) ==>
      Filter(t, groupName).error ==
        KeyError(if "Country" !in t.columns then "Country" else if "Location" !in t.columns then "Location" else "IP Address")
    ensures Filter(t, groupName).Failure? && "Country" in t.columns && "Location" in t.columns && "IP Address" in t.columns ==>
      Filter(t, groupName).error == AttributeError(StrAccessorMessage)
    ensures HitSet(t) == {} && (exists c: nat :: StrFails(t, c)) ==>
      Filter(t, groupName) == Failure(AttributeError(StrAccessorMessage))
    ensures HitSet(t) == {} && (forall c: nat :: !StrFails(t, c)) ==> Filter(t, groupName) == Success([])
  {
    HitCount(t);
    FirstTextlessSpec(t, |NameColumns|);
    var textless := FirstTextless(t, |NameColumns|);
    if textless.Some? {
      ColumnHitsAreMatches(t, 0, textless.value);
      if ColumnHits(t, 0, textless.value) != [] {
        assert ColumnHits(t, 0, textless.value)[0] in Hits(t);
      }
    }
  }

  /** A table whose only searched column has a row but no text: pandas reads that column as
      NaN and `.str` raises, although nothing matched. */
  lemma EmptyNameColumnFails()
    ensures Filter(Table({"Exporter_name_app"}, [map["Exporter_name_app" := None]]), "G") ==
      Failure(AttributeError(StrAccessorMessage))
  {
    var t := Table({"Exporter_name_app"}, [map["Exporter_name_app" := None]]);
    assert StrFails(t, 0);
    FilterFailsIff(t, "G");
  }

  /** One record per matching triple, in hit order, and each record is built from its row:
      the caller's group name, the matched token, the copied cells and the hostname or
      "Unknown". */
  lemma FilteredRecords(t: Table, groupName: string)
    requires Filter(t, groupName).Success?
    ensures |Filter(t, groupName).value| == |Hits(t)| == |HitSet(t)|
    ensures forall k :: 0 <= k < |Hits(t)| ==>
      var h := Hits(t)[k];
      h.token < |Tokens| && h.row < |t.rows| &&
      var r, row := Filter(t, groupName).value[k], t.rows[h.row];
      && r.group == groupName
      && r.exporterType == Tokens[h.token]
      && r.country == CellOf(row, "Country")
      && r.location == CellOf(row, "Location")
      && r.ipAddress == CellOf(row, "IP Address")
      && r.hostname == (if "Hostname" in t.columns then CellOf(row, "Hostname") else Some("Unknown"))
  {
    HitCount(t);
    var hs := Hits(t);
    if hs != [] {
      RecordsForAt(t, groupName, hs, 0);
    }
    forall k | 0 <= k < |hs|
      ensures hs[k] in hs && Filter(t, groupName).value[k] == RecordFor(t, groupName, hs[k])
    {
      RecordsForAt(t, groupName, hs, k);
    }
  }

  /** Every emitted record carries the caller's group name and one of the fixed tokens. */
  lemma FilteredRecordsAreTagged(t: Table, groupName: string)
    requires Filter(t, groupName).Success?
    ensures forall r :: r in Filter(t, groupName).value ==> r.group == groupName && r.exporterType in Tokens
  {
    FilteredRecords(t, groupName);
    forall r | r in Filter(t, groupName).value ensures r.group == groupName && r.exporterType in Tokens {
      var k :| 0 <= k < |Filter(t, groupName).value| && Filter(t, groupName).value[k] == r;
      assert Hits(t)[k].token < |Tokens|;
    }
  }

  /** A row whose two searched cells both contain a token yields two equal records for it,
      one per column: duplicates are kept. */
  lemma MatchInBothColumnsEmittedTwice(t: Table, groupName: string, ti: nat, ri: nat)
    requires IsHit(t, Hit(ti, 0, ri)) && IsHit(t, Hit(ti, 1, ri))
    requires Filter(t, groupName).Success?
    ensures exists k1, k2 :: (0 <= k1 < k2 < |Filter(t, groupName).value| &&
      Filter(t, groupName).value[k1] == Filter(t, groupName).value[k2] ==
      RecordFor(t, groupName, Hit(ti, 0, ri)))
  {
    var hs := Hits(t);
    var k1 :| 0 <= k1 < |hs| && hs[k1] == Hit(ti, 0, ri);
    var k2 :| 0 <= k2 < |hs| && hs[k2] == Hit(ti, 1, ri);
    assert k1 < k2;
    RecordsForAt(t, groupName, hs, k1);
    RecordsForAt(t, groupName, hs, k2);
  }
}
