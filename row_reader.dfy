/**
  What the two generators do with a data file once they have a path: choose
  the delimiter from the extension, resolve the tweet, target and stance
  columns case-insensitively through a lowercased-header map, and turn each
  question row into one prompt record, failing fast on a row whose tweet or
  target is missing or empty.

  The file system and `csv.DictReader` are not modelled: a file is its parsed
  header (the reader's field names) and rows (maps from field name to cell,
  None where a row was shorter than the header).
 */
module RowReader {
  import opened Common
  import opened Strings
  import opened Prompts

  /** One parsed row: field name to cell value. */
  type Row = map<string, Option<string>>

  /** A file as `csv.DictReader` presents it. */
  datatype Table = Table(header: seq<string>, rows: seq<Row>)

  /** `row.get(column)`. */
  function Cell(row: Row, column: string): Option<string> {
    if column in row then row[column] else None
  }

  // ---------------------------------------------------------------------------
  // Paths
  // ---------------------------------------------------------------------------

  /** `os.path.join(directory, name)` on POSIX: an absolute name replaces the
      directory, otherwise a separator is added unless the directory is empty
      or already ends in one. */
  function PathJoin(directory: string, name: string): (path: string)
    ensures EndsWith(path, name)
  {
    if StartsWith(name, "/") then name
    else if directory == [] || EndsWith(directory, "/") then directory + name
    else directory + "/" + name
  }

  /** An absolute name is the whole joined path. A relative one follows the
      directory, and exactly one character lies between them, a `/`, unless
      the directory is empty or already ends in `/`, when nothing does. */
  lemma PathJoinSpec(directory: string, name: string)
    ensures StartsWith(name, "/") ==> PathJoin(directory, name) == name
    ensures !StartsWith(name, "/") ==>
              StartsWith(PathJoin(directory, name), directory) &&
              |PathJoin(directory, name)| ==
                |directory| + |name| + (if directory == [] || EndsWith(directory, "/") then 0 else 1)
    ensures !StartsWith(name, "/") && directory != [] ==>
              PathJoin(directory, name)[|PathJoin(directory, name)| - |name| - 1] == '/'
  {
  }

  /** Some character strictly between positions `from` and `to` is not a dot. */
  predicate HasNonDot(path: string, from: int, to: int)
    requires -1 <= from && to <= |path|
  {
    exists k | from < k < to :: path[k] != '.'
  }

  /** The extension part of `os.path.splitext(path)` on POSIX: from the last dot
      to the end, provided that dot comes after the last '/' and the file name
      does not consist of dots up to it; otherwise empty. */
  function Extension(path: string): (ext: string)
    ensures EndsWith(path, ext)
    ensures ext != [] ==> ext[0] == '.' && forall k :: 1 <= k < |ext| ==> ext[k] != '.' && ext[k] != '/'
  {
    var slash := LastIndexOf(path, '/');
    var dot := LastIndexOf(path, '.');
    if dot > slash && HasNonDot(path, slash, dot) then path[dot..] else ""
  }

  /** The delimiter a data file is read with: tab for `.tsv`, comma for `.csv`,
      whatever the case of the extension; any other extension is refused. */
  function Delimiter(path: string): Result<char> {
    var ext := Lower(Extension(path));
    if ext == ".tsv" then Ok('\t')
    else if ext == ".csv" then Ok(',')
    else Err(UnsupportedFormat)
  }

  lemma LowerCharFixes(c: char, d: char)
    requires d == '.' || d == '/'
    ensures LowerChar(c) == d <==> c == d
  {
  }

  /** A four-character extension is the last four characters of the path. */
  lemma ExtensionIsSuffix(path: string)
    requires |Extension(path)| == 4
    ensures |path| >= 4 && Extension(path) == path[|path| - 4..]
    ensures HasNonDot(path, LastIndexOf(path, '/'), |path| - 4)
  {
  }

  /** A path whose last four characters are a dot and three characters other
      than '.' and '/', with a non-dot in the file name before them, has those
      four characters as its extension. */
  lemma SuffixIsExtension(path: string)
    requires |path| >= 4 && path[|path| - 4] == '.'
    requires forall i :: |path| - 3 <= i < |path| ==> path[i] != '.' && path[i] != '/'
    requires HasNonDot(path, LastIndexOf(path, '/'), |path| - 4)
    ensures Extension(path) == path[|path| - 4..]
  {
    var n := |path|;
    assert LastIndexOf(path, '.') == n - 4 by {
      assert forall k :: n - 4 < k < n ==> path[k] != '.';
    }
    assert LastIndexOf(path, '/') < n - 4 by {
      assert forall k :: n - 4 <= k < n ==> path[k] != '/';
    }
  }

  /** Lowercasing commutes with taking a suffix. */
  lemma LowerSuffix(path: string, k: nat)
    requires k <= |path|
    ensures Lower(path[k..]) == Lower(path)[k..]
  {
  }

  /** The delimiter is chosen by the lowercased extension alone. */
  lemma DelimiterOfExtension(path: string, ext: string, delimiter: char)
    requires (ext == ".tsv" && delimiter == '\t') || (ext == ".csv" && delimiter == ',')
    ensures Delimiter(path) == Ok(delimiter) <==> Lower(Extension(path)) == ext
  {
  }

  /** An accepted path has a lowercased suffix equal to the extension. */
  lemma DelimiterSound(path: string, ext: string)
    requires |ext| == 4 && Lower(Extension(path)) == ext
    ensures |path| >= 4 && EndsWith(Lower(path), ext) && HasNonDot(path, LastIndexOf(path, '/'), |path| - 4)
  {
    ExtensionIsSuffix(path);
    LowerTail(path, ext);
  }

  /** Lowercasing the last four characters is taking the last four of the lowercased path. */
  lemma LowerTail(path: string, ext: string)
    requires |path| >= 4
    ensures Lower(path[|path| - 4..]) == ext <==> |ext| == 4 && EndsWith(Lower(path), ext)
  {
    LowerSuffix(path, |path| - 4);
  }

  /** A file name suffix as a data extension: a dot and three characters other than '.' and '/'. */
  predicate ExtensionText(ext: string) {
    |ext| == 4 && ext[0] == '.' && forall i :: 1 <= i < 4 ==> ext[i] != '.' && ext[i] != '/'
  }

  lemma DataExtensions()
    ensures ExtensionText(".tsv") && ExtensionText(".csv")
  {
  }

  /** Lowercasing keeps dots, slashes and everything else apart. */
  lemma LowerKeepsShape(s: string)
    requires ExtensionText(Lower(s))
    ensures ExtensionText(s)
  {
    var low := Lower(s);
    assert low[0] == LowerChar(s[0]);
    LowerCharFixes(s[0], '.');
    forall i | 1 <= i < 4 ensures s[i] != '.' && s[i] != '/' {
      assert low[i] == LowerChar(s[i]);
      LowerCharFixes(s[i], '.');
      LowerCharFixes(s[i], '/');
    }
  }

  /** A path whose lowercased suffix is a dot and three other characters has
      that suffix as its lowercased extension. */
  lemma DelimiterComplete(path: string, ext: string)
    requires ExtensionText(ext)
    requires |path| >= 4 && EndsWith(Lower(path), ext) && HasNonDot(path, LastIndexOf(path, '/'), |path| - 4)
    ensures Lower(Extension(path)) == ext
  {
    var tail := path[|path| - 4..];
    LowerTail(path, ext);
    assert Lower(tail) == ext;
    LowerKeepsShape(tail);
    ExtensionTextAtEnd(path);
    SuffixIsExtension(path);
  }

  /** A path ending in a data extension has a dot four from the end and no dot
      or slash after it. */
  lemma ExtensionTextAtEnd(path: string)
    requires |path| >= 4 && ExtensionText(path[|path| - 4..])
    ensures path[|path| - 4] == '.'
    ensures forall i :: |path| - 3 <= i < |path| ==> path[i] != '.' && path[i] != '/'
  {
    var n := |path|;
    var tail := path[n - 4..];
    assert path[n - 4] == tail[0];
    forall i | n - 3 <= i < n ensures path[i] != '.' && path[i] != '/' {
      assert path[i] == tail[i - (n - 4)];
    }
  }

  /** A path is accepted exactly when its lowercased form ends in the
      extension and the file name has something other than dots before that
      extension (".csv", "..csv" and "dir/.csv" have no extension). */
  lemma DelimiterSpec(path: string, ext: string, delimiter: char)
    requires (ext == ".tsv" && delimiter == '\t') || (ext == ".csv" && delimiter == ',')
    ensures Delimiter(path) == Ok(delimiter) <==>
              |path| >= 4 && EndsWith(Lower(path), ext) && HasNonDot(path, LastIndexOf(path, '/'), |path| - 4)
  {
    DataExtensions();
    DelimiterOfExtension(path, ext, delimiter);
    if Lower(Extension(path)) == ext {
      DelimiterSound(path, ext);
    }
    if |path| >= 4 && EndsWith(Lower(path), ext) && HasNonDot(path, LastIndexOf(path, '/'), |path| - 4) {
      DelimiterComplete(path, ext);
    }
  }

  // ---------------------------------------------------------------------------
  // Columns
  // ---------------------------------------------------------------------------

  /** Header `j` is the last one that lowercases to `key`. */
  predicate IsLastWith(header: seq<string>, j: int, key: string) {
    0 <= j < |header| && Lower(header[j]) == key &&
    forall k :: j < k < |header| ==> Lower(header[k]) != key
  }

  /** `{key.lower(): key for key in header}`. */
  function HeaderMap(header: seq<string>): map<string, string>
    decreases |header|
  {
    if header == [] then map[]
    else HeaderMap(header[..|header| - 1])[Lower(header[|header| - 1]) := header[|header| - 1]]
  }

  /** Every lowercased field name is a key, and it maps to the last field name
      that lowercases to it: on a case clash the later header wins. */
  lemma {:induction false} HeaderMapSpec(header: seq<string>)
    ensures forall i :: 0 <= i < |header| ==> Lower(header[i]) in HeaderMap(header)
    ensures forall key | key in HeaderMap(header) ::
              exists j :: IsLastWith(header, j, key) && HeaderMap(header)[key] == header[j]
    decreases |header|
  {
    if header != [] {
      var n := |header|;
      var init := header[..n - 1];
      var last := header[n - 1];
      HeaderMapSpec(init);
      var m := HeaderMap(init);
      assert forall i :: 0 <= i < |init| ==> init[i] == header[i];
      forall key | key in HeaderMap(header)
        ensures exists j :: IsLastWith(header, j, key) && HeaderMap(header)[key] == header[j]
      {
        if key == Lower(last) {
          assert IsLastWith(header, n - 1, key);
        } else {
          var j :| IsLastWith(init, j, key) && m[key] == init[j];
          assert IsLastWith(header, j, key);
        }
      }
    }
  }

  /** `field_mapping.get(name)`. */
  function Column(header: seq<string>, name: string): Option<string> {
    var m := HeaderMap(header);
    if name in m then Some(m[name]) else None
  }

  /** A column is found exactly when some field name lowercases to the name asked
      for; what is found is the last such field name, and it is as long as the
      name, so a found column is never empty and the truthiness test the
      generators apply is a presence test. */
  lemma ColumnSpec(header: seq<string>, name: string)
    ensures Column(header, name).Some? <==> exists i :: 0 <= i < |header| && Lower(header[i]) == name
    ensures Column(header, name).Some? ==>
              exists j :: IsLastWith(header, j, name) && Column(header, name).value == header[j]
    ensures Column(header, name).Some? ==> |Column(header, name).value| == |name|
    ensures |name| > 0 ==> (Truthy(Column(header, name)) <==> Column(header, name).Some?)
  {
    HeaderMapSpec(header);
    if Column(header, name).Some? {
      var j :| IsLastWith(header, j, name) && Column(header, name).value == header[j];
      assert |Lower(header[j])| == |header[j]|;
    }
  }

  // ---------------------------------------------------------------------------
  // Records
  // ---------------------------------------------------------------------------

  /** One output record: the run's metadata, the row's tweet and target, and the prompt. */
  datatype PromptRecord = PromptRecord(dataset: string, model: string, candidate: Option<string>,
                                       tweet: string, target: string, prompt: string)

  /** The metadata every record of a run carries. */
  datatype Meta = Meta(dataset: string, model: string, candidate: Option<string>)

  /** A question row can be used when both its tweet and its target are present and non-empty. */
  predicate RowValid(row: Row, tweetColumn: string, targetColumn: string) {
    Truthy(Cell(row, tweetColumn)) && Truthy(Cell(row, targetColumn))
  }

  /** The record of a valid row: `render` is the template the run resolved. */
  function RecordOf(meta: Meta, render: (string, string) -> string, row: Row, tweetColumn: string,
                    targetColumn: string): PromptRecord
    requires RowValid(row, tweetColumn, targetColumn)
  {
    var tweet := Cell(row, tweetColumn).value;
    var target := Cell(row, targetColumn).value;
    PromptRecord(meta.dataset, meta.model, meta.candidate, tweet, target, render(tweet, target))
  }

  /** The records of `rows`, read in order; the first invalid row aborts with `InvalidRow`. */
  function RowRecords(rows: seq<Row>, tweetColumn: string, targetColumn: string, meta: Meta, render: (string, string) -> string)
    : (r: Result<seq<PromptRecord>>)
    ensures r.Err? ==> r.error == InvalidRow
    decreases |rows|
  {
    if rows == [] then Ok([])
    else
      var last := rows[|rows| - 1];
      match RowRecords(rows[..|rows| - 1], tweetColumn, targetColumn, meta, render)
      case Err(e) => Err(e)
      case Ok(records) =>
        if RowValid(last, tweetColumn, targetColumn)
        then Ok(records + [RecordOf(meta, render, last, tweetColumn, targetColumn)])
        else Err(InvalidRow)
  }

  /** The rows give records exactly when every row is valid, and then one record
      per row, in order, with the row's tweet and target verbatim and the
      template applied to them. */
  lemma {:induction false} RowRecordsSpec(rows: seq<Row>, tweetColumn: string, targetColumn: string,
                                          meta: Meta, render: (string, string) -> string)
    ensures RowRecords(rows, tweetColumn, targetColumn, meta, render).Ok? <==>
              forall i :: 0 <= i < |rows| ==> RowValid(rows[i], tweetColumn, targetColumn)
    ensures RowRecords(rows, tweetColumn, targetColumn, meta, render).Ok? ==>
              var records := RowRecords(rows, tweetColumn, targetColumn, meta, render).value;
              |records| == |rows| &&
              forall i :: 0 <= i < |rows| ==> records[i] == RecordOf(meta, render, rows[i], tweetColumn, targetColumn)
    decreases |rows|
  {
    if rows != [] {
      var init := rows[..|rows| - 1];
      RowRecordsSpec(init, tweetColumn, targetColumn, meta, render);
      assert forall i :: 0 <= i < |init| ==> init[i] == rows[i];
    }
  }

  /** The loop over a file's question rows: validate each row, apply the
      template, append the record. */
  method ReadRecords(rows: seq<Row>, tweetColumn: string, targetColumn: string, meta: Meta, render: (string, string) -> string)
    returns (r: Result<seq<PromptRecord>>)
    ensures r == RowRecords(rows, tweetColumn, targetColumn, meta, render)
  {
    var prompts := [];
    var i := 0;
    while i < |rows|
      invariant 0 <= i <= |rows|
      invariant RowRecords(rows[..i], tweetColumn, targetColumn, meta, render) == Ok(prompts)
    {
      var row := rows[i];
      assert rows[..i + 1][..i] == rows[..i];
      var tweet := Cell(row, tweetColumn);
      var target := Cell(row, targetColumn);
      if !Truthy(tweet) || !Truthy(target) {
        RowRecordsAbort(rows, i, tweetColumn, targetColumn, meta, render);
        return Err(InvalidRow);
      }
      var prompt := render(tweet.value, target.value);
      prompts := prompts + [PromptRecord(meta.dataset, meta.model, meta.candidate, tweet.value, target.value, prompt)];
      i := i + 1;
    }
    assert rows[..i] == rows;
    r := Ok(prompts);
  }

  /** Once a prefix ends in an invalid row, no longer prefix recovers. */
  lemma {:induction false} RowRecordsAbort(rows: seq<Row>, i: int, tweetColumn: string, targetColumn: string,
                                           meta: Meta, render: (string, string) -> string)
    requires 0 <= i < |rows| && !RowValid(rows[i], tweetColumn, targetColumn)
    ensures RowRecords(rows, tweetColumn, targetColumn, meta, render) == Err(InvalidRow)
  {
    RowRecordsSpec(rows, tweetColumn, targetColumn, meta, render);
  }

  /** Changing the run's metadata changes nothing but the metadata: the same
      rows are accepted or refused, and the records keep their tweets,
      targets and prompts. */
  lemma {:induction false} RowRecordsMetaIndependent(rows: seq<Row>, tweetColumn: string, targetColumn: string,
                                                     meta1: Meta, meta2: Meta, render: (string, string) -> string)
    ensures RowRecords(rows, tweetColumn, targetColumn, meta1, render).Ok? <==>
            RowRecords(rows, tweetColumn, targetColumn, meta2, render).Ok?
    ensures RowRecords(rows, tweetColumn, targetColumn, meta1, render).Ok? ==>
              Texts(RowRecords(rows, tweetColumn, targetColumn, meta1, render).value) ==
              Texts(RowRecords(rows, tweetColumn, targetColumn, meta2, render).value)
    decreases |rows|
  {
    if rows != [] {
      var init := rows[..|rows| - 1];
      RowRecordsMetaIndependent(init, tweetColumn, targetColumn, meta1, meta2, render);
      var r1 := RowRecords(init, tweetColumn, targetColumn, meta1, render);
      var r2 := RowRecords(init, tweetColumn, targetColumn, meta2, render);
      var last := rows[|rows| - 1];
      if r1.Ok? && RowValid(last, tweetColumn, targetColumn) {
        TextsAppend(r1.value, [RecordOf(meta1, render, last, tweetColumn, targetColumn)]);
        TextsAppend(r2.value, [RecordOf(meta2, render, last, tweetColumn, targetColumn)]);
      }
    }
  }

  /** The tweet, target and prompt of each record, without the metadata. */
  function Texts(records: seq<PromptRecord>): (texts: seq<(string, string, string)>)
    ensures |texts| == |records|
  {
    seq(|records|, i requires 0 <= i < |records| => (records[i].tweet, records[i].target, records[i].prompt))
  }

  lemma TextsAppend(a: seq<PromptRecord>, b: seq<PromptRecord>)
    ensures Texts(a + b) == Texts(a) + Texts(b)
  {
  }

  // ---------------------------------------------------------------------------
  // One question file
  // ---------------------------------------------------------------------------

  /** The whole output of a run: where it is written and the records written there. */
  datatype Output = Output(path: string, records: seq<PromptRecord>)

  /** Some field name lowercases to `name`. */
  predicate HasField(header: seq<string>, name: string) {
    exists i :: 0 <= i < |header| && Lower(header[i]) == name
  }

  /** The records of one question file: the delimiter comes from the path,
      `read` gives the file's parsed contents under that delimiter, the tweet
      and target columns must both be present, and then every row must be
      valid. */
  function FileRecords(path: string, read: (string, char) -> Table, meta: Meta, render: (string, string) -> string)
    : Result<seq<PromptRecord>>
  {
    match Delimiter(path)
    case Err(e) => Err(e)
    case Ok(delimiter) =>
      var table := read(path, delimiter);
      var tweetColumn := Column(table.header, "tweet");
      var targetColumn := Column(table.header, "target");
      if !Truthy(tweetColumn) || !Truthy(targetColumn) then Err(MissingColumns(path))
      else RowRecords(table.rows, tweetColumn.value, targetColumn.value, meta, render)
  }

  /** A record of the run: its metadata, a non-empty tweet and target, and the
      template applied to exactly those two. */
  predicate Rendered(record: PromptRecord, meta: Meta, render: (string, string) -> string) {
    record.dataset == meta.dataset && record.model == meta.model && record.candidate == meta.candidate &&
    record.tweet != "" && record.target != "" && record.prompt == render(record.tweet, record.target)
  }

  /** `record` carries the tweet and the target of row `row` of the file at
      `path`, read through the resolved "tweet" and "target" columns. */
  predicate CopiedFrom(record: PromptRecord, path: string, read: (string, char) -> Table, row: int) {
    Delimiter(path).Ok? &&
    var table := read(path, Delimiter(path).value);
    0 <= row < |table.rows| && Column(table.header, "tweet").Some? && Column(table.header, "target").Some? &&
    Some(record.tweet) == Cell(table.rows[row], Column(table.header, "tweet").value) &&
    Some(record.target) == Cell(table.rows[row], Column(table.header, "target").value)
  }

  /** The file fails with `UnsupportedFormat` exactly when its extension is
      refused, with `MissingColumns` exactly when its extension is accepted
      but no field name lowercases to "tweet" or none to "target", with
      `InvalidRow` exactly when the columns are there but some row lacks a
      tweet or a target, and with no other error. */
  lemma FileRecordsErrors(path: string, read: (string, char) -> Table, meta: Meta, render: (string, string) -> string)
    ensures FileRecords(path, read, meta, render) == Err(UnsupportedFormat) <==> Delimiter(path).Err?
    ensures FileRecords(path, read, meta, render) == Err(MissingColumns(path)) <==>
              Delimiter(path).Ok? &&
              var table := read(path, Delimiter(path).value);
              !(HasField(table.header, "tweet") && HasField(table.header, "target"))
    ensures FileRecords(path, read, meta, render) == Err(InvalidRow) <==>
              Delimiter(path).Ok? &&
              var table := read(path, Delimiter(path).value);
              HasField(table.header, "tweet") && HasField(table.header, "target") &&
              exists i :: 0 <= i < |table.rows| &&
                !RowValid(table.rows[i], Column(table.header, "tweet").value, Column(table.header, "target").value)
    ensures FileRecords(path, read, meta, render).Err? ==>
              FileRecords(path, read, meta, render).error in {UnsupportedFormat, MissingColumns(path), InvalidRow}
  {
    if Delimiter(path).Ok? {
      var table := read(path, Delimiter(path).value);
      ColumnSpec(table.header, "tweet");
      ColumnSpec(table.header, "target");
      if HasField(table.header, "tweet") && HasField(table.header, "target") {
        RowRecordsSpec(table.rows, Column(table.header, "tweet").value, Column(table.header, "target").value,
                       meta, render);
      }
    }
  }

  /** An accepted file gives one record per row, in row order, each row's tweet
      and target copied from the resolved columns, every record rendered by
      the run's template. */
  lemma FileRecordsSpec(path: string, read: (string, char) -> Table, meta: Meta, render: (string, string) -> string)
    requires FileRecords(path, read, meta, render).Ok?
    ensures Delimiter(path).Ok?
    ensures var table := read(path, Delimiter(path).value);
            Truthy(Column(table.header, "tweet")) && Truthy(Column(table.header, "target"))
    ensures var table := read(path, Delimiter(path).value);
            var records := FileRecords(path, read, meta, render).value;
            |records| == |table.rows| &&
            forall i :: 0 <= i < |records| ==>
              Rendered(records[i], meta, render) &&
              Some(records[i].tweet) == Cell(table.rows[i], Column(table.header, "tweet").value) &&
              Some(records[i].target) == Cell(table.rows[i], Column(table.header, "target").value)
  {
    var table := read(path, Delimiter(path).value);
    RowRecordsSpec(table.rows, Column(table.header, "tweet").value, Column(table.header, "target").value, meta, render);
  }

  /** Every record of an accepted file is rendered by the run's template. */
  lemma FileRecordsRendered(path: string, read: (string, char) -> Table, meta: Meta, render: (string, string) -> string)
    requires FileRecords(path, read, meta, render).Ok?
    ensures forall record :: record in FileRecords(path, read, meta, render).value ==> Rendered(record, meta, render)
  {
    FileRecordsSpec(path, read, meta, render);
  }

  /** A file's records depend on `read` only through what it gives for that path. */
  lemma FileRecordsReadsOnly(path: string, read1: (string, char) -> Table, read2: (string, char) -> Table, meta: Meta,
                             render: (string, string) -> string)
    requires forall delimiter :: read1(path, delimiter) == read2(path, delimiter)
    ensures FileRecords(path, read1, meta, render) == FileRecords(path, read2, meta, render)
  {
  }

  /** Changing the metadata of a file's records changes nothing else: the
      file is accepted or refused alike, with the same error, and gives the
      same tweets, targets and prompts. */
  lemma FileRecordsMetaIndependent(path: string, read: (string, char) -> Table, meta1: Meta, meta2: Meta,
                                   render: (string, string) -> string)
    ensures FileRecords(path, read, meta1, render).Ok? <==> FileRecords(path, read, meta2, render).Ok?
    ensures FileRecords(path, read, meta1, render).Err? ==>
              FileRecords(path, read, meta1, render) == FileRecords(path, read, meta2, render)
    ensures FileRecords(path, read, meta1, render).Ok? ==>
              Texts(FileRecords(path, read, meta1, render).value) == Texts(FileRecords(path, read, meta2, render).value)
  {
    if Delimiter(path).Ok? {
      var table := read(path, Delimiter(path).value);
      var tweetColumn := Column(table.header, "tweet");
      var targetColumn := Column(table.header, "target");
      if Truthy(tweetColumn) && Truthy(targetColumn) {
        RowRecordsMetaIndependent(table.rows, tweetColumn.value, targetColumn.value, meta1, meta2, render);
      }
    }
  }

  /** Reading one question file: choose the delimiter, read the file, resolve
      the two columns, then run the row loop. */
  method ReadFile(path: string, read: (string, char) -> Table, meta: Meta, render: (string, string) -> string)
    returns (r: Result<seq<PromptRecord>>)
    ensures r == FileRecords(path, read, meta, render)
  {
    var delimiter := Delimiter(path);
    if delimiter.Err? {
      return Err(delimiter.error);
    }
    var table := read(path, delimiter.value);
    var tweetColumn := Column(table.header, "tweet");
    var targetColumn := Column(table.header, "target");
    if !Truthy(tweetColumn) || !Truthy(targetColumn) {
      return Err(MissingColumns(path));
    }
    r := ReadRecords(table.rows, tweetColumn.value, targetColumn.value, meta, render);
  }
}
