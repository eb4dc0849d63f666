/** The file-extension gate of the upload handler and the reader dispatch of the filter. */
module Upload {
  import opened Common
  import opened Text

  /** The extensions the upload form accepts. */
  const AllowedExtensions: set<string> := {"xlsx", "xls", "csv"}

  /** `allowed_file`: the name contains a '.' and the lower-cased text after its last '.'
      is one of the allowed extensions. */
  predicate AllowedFile(filename: string) {
    '.' in filename && Lower(RSplitOnce(filename, '.')[1]) in AllowedExtensions
  }

  /** The name is accepted exactly when some '.' with no '.' after it is followed by an
      allowed extension, in any letter case. */
  lemma AllowedFileIff(filename: string)
    ensures AllowedFile(filename) <==>
      exists i :: 0 <= i < |filename| && filename[i] == '.' && '.' !in filename[i + 1..] &&
                  Lower(filename[i + 1..]) in AllowedExtensions
  {
    if '.' in filename {
      var parts := RSplitOnce(filename, '.');
      var k := |parts[0]|;
      assert filename[k] == '.' && filename[k + 1..] == parts[1];
      forall i | 0 <= i < |filename| && filename[i] == '.' && '.' !in filename[i + 1..]
        ensures i == k
      {
      }
    }
  }

  /** Sample names: any letter case is accepted and only the last suffix counts. */
  lemma AllowedFileAccepts()
    ensures AllowedFile("inventory.XLSX") && AllowedFile("site.list.csv")
  {
    RSplitOnceJoin("inventory", '.', "XLSX");
    assert "inventory" + "." + "XLSX" == "inventory.XLSX";
    assert Lower("XLSX") == "xlsx";
    RSplitOnceJoin("site.list", '.', "csv");
    assert "site.list" + "." + "csv" == "site.list.csv";
    assert Lower("csv") == "csv";
  }

  /** Sample names: a name whose last suffix is not allowed is rejected, even when an
      earlier suffix is. */
  lemma AllowedFileRejects()
    ensures !AllowedFile("data.csv.bak")
  {
    RSplitOnceJoin("data.csv", '.', "bak");
    assert "data.csv" + "." + "bak" == "data.csv.bak";
    assert Lower("bak") == "bak";
  }

  /** The two pandas readers the filter chooses between. */
  datatype Reader = ExcelReader | CsvReader

  /** The reader dispatch at the top of `filter_exporters`: the lower-cased text after the
      last '.' of the path selects a reader; a path without '.' fails on the list index and
      any other extension raises "Unsupported file type". No reading happens here. */
  function ReaderFor(path: string): (r: Result<Reader, Error>)
    ensures r.Failure? ==>
      r.error == if '.' in path then ValueError("Unsupported file type") else IndexError
  {
    var parts := RSplitOnce(path, '.');
    if |parts| < 2 then Failure(IndexError)
    else
      var extension := Lower(parts[1]);
      if extension in ["xlsx", "xls"] then Success(ExcelReader)
      else if extension == "csv" then Success(CsvReader)
      else Failure(ValueError("Unsupported file type"))
  }

  /** The dispatch accepts exactly the names the upload gate lets through, so for uploaded
      files its error branch is unreachable; the CSV reader is chosen for the suffix "csv"
      in any letter case and the Excel reader for the other two. */
  lemma ReaderForAgreesWithAllowedFile(path: string)
    ensures ReaderFor(path).Success? <==> AllowedFile(path)
    ensures ReaderFor(path) == Success(CsvReader) <==>
      '.' in path && Lower(RSplitOnce(path, '.')[1]) == "csv"
    ensures ReaderFor(path) == Success(ExcelReader) <==>
      '.' in path && Lower(RSplitOnce(path, '.')[1]) in {"xlsx", "xls"}
  {
  }
}
