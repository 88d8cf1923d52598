/**
  `generate_few_shot_prompts`: resolve the few-shot template from the dataset
  and model names, choose example and question files from the directory
  listing, sample the exemplars from the first example file, render one
  prompt per question row of every question file, and name the output file.

  The directory listing is the parameter `listing`, the files' contents the
  parameter `read` (path and delimiter to parsed table), and `random.sample`
  the parameter `sample`, which picks positions among the rows; writing the
  JSON is left out, the run returns the path it would write and the records
  it would write there.
 */
module FewShotDriver {
  import opened Common
  import opened Strings
  import opened Prompts
  import opened Registry
  import opened RowReader

  // ---------------------------------------------------------------------------
  // File selection
  // ---------------------------------------------------------------------------

  /** The datasets whose files are chosen per candidate. */
  predicate CandidateScoped(dataset: string) {
    dataset == "PStance" || dataset == "twitter_stance_kemlm"
  }

  /** What a candidate-scoped dataset's example files are called after:
      validation files for PStance, training files otherwise. */
  function ExampleKeyword(dataset: string): string {
    if dataset == "PStance" then "val" else "train"
  }

  /** A listed name is kept when, lowercased, it contains the keyword and, if a
      candidate filter is given, the lowercased candidate. */
  predicate Selected(name: string, keyword: string, candidate: Option<string>) {
    Contains(Lower(name), keyword) && (candidate.Some? ==> Contains(Lower(name), Lower(candidate.value)))
  }

  /** The condition of one file-list comprehension. */
  function Keep(keyword: string, candidate: Option<string>): string -> bool {
    name => Selected(name, keyword, candidate)
  }

  /** `[os.path.join(directory, f) for f in listing if keep(f)]`: the kept names,
      in listing order, each joined to the directory. */
  function SelectFiles(directory: string, listing: seq<string>, keep: string -> bool): (files: seq<string>)
    ensures |files| <= |listing|
    decreases |listing|
  {
    if listing == [] then []
    else
      var kept := SelectFiles(directory, listing[..|listing| - 1], keep);
      var name := listing[|listing| - 1];
      if keep(name) then kept + [PathJoin(directory, name)] else kept
  }

  /** Selecting from two listings one after the other is selecting from their
      concatenation: the filter keeps the listing's order. */
  lemma {:induction false} SelectFilesAppend(directory: string, a: seq<string>, b: seq<string>, keep: string -> bool)
    ensures SelectFiles(directory, a + b, keep) == SelectFiles(directory, a, keep) + SelectFiles(directory, b, keep)
    decreases |b|
  {
    if b == [] {
      assert a + b == a;
    } else {
      var b' := b[..|b| - 1];
      var name := b[|b| - 1];
      assert (a + b)[..|a + b| - 1] == a + b';
      assert (a + b)[|a + b| - 1] == name;
      SelectFilesAppend(directory, a, b', keep);
      var tail := if keep(name) then [PathJoin(directory, name)] else [];
      assert SelectFiles(directory, a + b, keep) == SelectFiles(directory, a + b', keep) + tail;
      assert SelectFiles(directory, b, keep) == SelectFiles(directory, b', keep) + tail;
      assert SelectFiles(directory, a, keep) + SelectFiles(directory, b', keep) + tail ==
             SelectFiles(directory, a, keep) + (SelectFiles(directory, b', keep) + tail);
    }
  }

  /** A path is selected exactly when it is the directory joined to a listed
      name that passes the filter. */
  lemma {:induction false} SelectFilesMembership(directory: string, listing: seq<string>, keep: string -> bool,
                                                 path: string)
    ensures path in SelectFiles(directory, listing, keep) <==>
            exists i :: 0 <= i < |listing| && keep(listing[i]) && path == PathJoin(directory, listing[i])
    decreases |listing|
  {
    if listing != [] {
      var last := |listing| - 1;
      var init := listing[..last];
      var kept := SelectFiles(directory, init, keep);
      var tail := if keep(listing[last]) then [PathJoin(directory, listing[last])] else [];
      assert SelectFiles(directory, listing, keep) == kept + tail;
      forall i | 0 <= i < last && keep(listing[i])
        ensures PathJoin(directory, listing[i]) in kept
      {
        assert init[i] == listing[i];
        SelectFilesMembership(directory, init, keep, PathJoin(directory, listing[i]));
      }
      SelectFilesMembership(directory, init, keep, path);
      if path in kept {
        var i :| 0 <= i < |init| && keep(init[i]) && path == PathJoin(directory, init[i]);
        assert listing[i] == init[i];
      } else if path in tail {
        assert path == PathJoin(directory, listing[last]);
      }
    }
  }

  /** The example files and the question files a run reads. */
  datatype Inputs = Inputs(examples: seq<string>, tests: seq<string>)

  /** The candidate check and the two filters of the listing: candidate-scoped
      datasets need a truthy candidate and filter on it, other datasets take
      every training and every test file; either list empty is an error. */
  function SelectInputs(dataset: string, candidate: Option<string>, directory: string, listing: seq<string>)
    : (r: Result<Inputs>)
    ensures r.Ok? ==> r.value.examples != [] && r.value.tests != []
  {
    if CandidateScoped(dataset) then
      if !Truthy(candidate) then Err(MissingCandidate(dataset))
      else
        var examples := SelectFiles(directory, listing, Keep(ExampleKeyword(dataset), candidate));
        var tests := SelectFiles(directory, listing, Keep("test", candidate));
        if examples == [] || tests == [] then Err(NoCandidateFiles(candidate.value, directory))
        else Ok(Inputs(examples, tests))
    else
      var examples := SelectFiles(directory, listing, Keep("train", None));
      var tests := SelectFiles(directory, listing, Keep("test", None));
      if examples == [] || tests == [] then Err(NoTrainOrTestFiles(directory, dataset))
      else Ok(Inputs(examples, tests))
  }

  /** The candidate filter a dataset's files are chosen with. */
  function CandidateFilter(dataset: string, candidate: Option<string>): Option<string> {
    if CandidateScoped(dataset) then candidate else None
  }

  /** A candidate-scoped dataset without a truthy candidate is refused; otherwise
      the run has inputs exactly when both filters keep something, and then a
      file is an example file (a question file) exactly when it is the
      directory joined to a listed name whose lowercased form contains the
      example keyword ("test") and, for a candidate-scoped dataset, the
      lowercased candidate. */
  lemma SelectInputsSpec(dataset: string, candidate: Option<string>, directory: string, listing: seq<string>,
                         path: string)
    ensures CandidateScoped(dataset) && !Truthy(candidate) ==>
              SelectInputs(dataset, candidate, directory, listing) == Err(MissingCandidate(dataset))
    ensures SelectInputs(dataset, candidate, directory, listing).Ok? <==>
              (CandidateScoped(dataset) ==> Truthy(candidate)) &&
              SelectFiles(directory, listing, Keep(ExampleKeyword(dataset), CandidateFilter(dataset, candidate))) != [] &&
              SelectFiles(directory, listing, Keep("test", CandidateFilter(dataset, candidate))) != []
    ensures SelectInputs(dataset, candidate, directory, listing).Ok? ==>
              (path in SelectInputs(dataset, candidate, directory, listing).value.examples <==>
                 exists i :: 0 <= i < |listing| &&
                   Selected(listing[i], ExampleKeyword(dataset), CandidateFilter(dataset, candidate)) &&
                   path == PathJoin(directory, listing[i])) &&
              (path in SelectInputs(dataset, candidate, directory, listing).value.tests <==>
                 exists i :: 0 <= i < |listing| &&
                   Selected(listing[i], "test", CandidateFilter(dataset, candidate)) &&
                   path == PathJoin(directory, listing[i]))
  {
    var filter := CandidateFilter(dataset, candidate);
    SelectFilesMembership(directory, listing, Keep(ExampleKeyword(dataset), filter), path);
    SelectFilesMembership(directory, listing, Keep("test", filter), path);
  }

  // ---------------------------------------------------------------------------
  // Exemplars
  // ---------------------------------------------------------------------------

  /** `picks` are `k` distinct row positions below `n`. */
  predicate IsSample(picks: seq<nat>, n: nat, k: nat) {
    |picks| == k &&
    (forall i :: 0 <= i < k ==> picks[i] < n) &&
    (forall i, j :: 0 <= i < j < k ==> picks[i] != picks[j])
  }

  /** What `random.sample` promises: for every `k <= n`, `k` distinct positions below `n`. */
  ghost predicate ValidSampler(sample: (nat, nat) -> seq<nat>) {
    forall n: nat, k: nat :: k <= n ==> IsSample(sample(n, k), n, k)
  }

  /** The exemplar a sampled row gives; its cells are taken as they are, empty or missing. */
  function ExemplarOf(row: Row, tweetColumn: string, targetColumn: string, stanceColumn: string): Exemplar {
    Exemplar(Cell(row, tweetColumn), Cell(row, targetColumn), Cell(row, stanceColumn))
  }

  /** The exemplars of the rows at the picked positions, in pick order. */
  function Pick(rows: seq<Row>, picks: seq<nat>, tweetColumn: string, targetColumn: string, stanceColumn: string)
    : (examples: seq<Exemplar>)
    requires forall i :: 0 <= i < |picks| ==> picks[i] < |rows|
    ensures |examples| == |picks|
  {
    seq(|picks|, i requires 0 <= i < |picks| => ExemplarOf(rows[picks[i]], tweetColumn, targetColumn, stanceColumn))
  }

  /** The exemplars a run samples from an example file. */
  function ExampleSet(path: string, read: (string, char) -> Table, count: int, sample: (nat, nat) -> seq<nat>)
    : Result<seq<Exemplar>>
    requires ValidSampler(sample)
  {
    match Delimiter(path)
    case Err(e) => Err(e)
    case Ok(delimiter) =>
      var table := read(path, delimiter);
      var tweetColumn := Column(table.header, "tweet");
      var targetColumn := Column(table.header, "target");
      var stanceColumn := Column(table.header, "stance");
      if !Truthy(tweetColumn) || !Truthy(targetColumn) || !Truthy(stanceColumn) then Err(MissingColumns(path))
      else if |table.rows| < count then Err(InsufficientRows(path, count))
      else if count < 0 then Err(NegativeSampleSize)
      else
        var picks := sample(|table.rows|, count);
        Ok(Pick(table.rows, picks, tweetColumn.value, targetColumn.value, stanceColumn.value))
  }

  /** An example file gives exemplars exactly when its extension is accepted,
      its header has "tweet", "target" and "stance" in some case, and the count
      is between 0 and its number of rows; the rows' contents are never
      checked. Then there are `count` exemplars, taken from `count` distinct
      rows. A file with too few rows fails with `InsufficientRows`, and a
      negative count with `NegativeSampleSize`. */
  lemma ExampleSetSpec(path: string, read: (string, char) -> Table, count: int, sample: (nat, nat) -> seq<nat>)
    requires ValidSampler(sample)
    ensures ExampleSet(path, read, count, sample).Ok? <==>
              Delimiter(path).Ok? &&
              var table := read(path, Delimiter(path).value);
              HasField(table.header, "tweet") && HasField(table.header, "target") &&
              HasField(table.header, "stance") && 0 <= count <= |table.rows|
    ensures ExampleSet(path, read, count, sample).Ok? ==>
              var table := read(path, Delimiter(path).value);
              var examples := ExampleSet(path, read, count, sample).value;
              |examples| == count &&
              exists picks :: IsSample(picks, |table.rows|, count) &&
                forall i :: 0 <= i < count ==>
                  examples[i] == ExemplarOf(table.rows[picks[i]], Column(table.header, "tweet").value,
                                            Column(table.header, "target").value, Column(table.header, "stance").value)
    ensures ExampleSet(path, read, count, sample).Err? && count < 0 ==>
              ExampleSet(path, read, count, sample).error in {UnsupportedFormat, MissingColumns(path), NegativeSampleSize}
    ensures ExampleSet(path, read, count, sample).Err? && count >= 0 ==>
              ExampleSet(path, read, count, sample).error in
                {UnsupportedFormat, MissingColumns(path), InsufficientRows(path, count)}
    ensures ExampleSet(path, read, count, sample) == Err(UnsupportedFormat) <==> Delimiter(path).Err?
    ensures ExampleSet(path, read, count, sample) == Err(MissingColumns(path)) <==>
              Delimiter(path).Ok? &&
              var table := read(path, Delimiter(path).value);
              !(HasField(table.header, "tweet") && HasField(table.header, "target") &&
                HasField(table.header, "stance"))
    ensures ExampleSet(path, read, count, sample) == Err(InsufficientRows(path, count)) <==>
              Delimiter(path).Ok? &&
              var table := read(path, Delimiter(path).value);
              HasField(table.header, "tweet") && HasField(table.header, "target") &&
              HasField(table.header, "stance") && |table.rows| < count
    ensures ExampleSet(path, read, count, sample) == Err(NegativeSampleSize) <==>
              Delimiter(path).Ok? &&
              var table := read(path, Delimiter(path).value);
              HasField(table.header, "tweet") && HasField(table.header, "target") &&
              HasField(table.header, "stance") && count < 0
  {
    if Delimiter(path).Ok? {
      var table := read(path, Delimiter(path).value);
      ColumnSpec(table.header, "tweet");
      ColumnSpec(table.header, "target");
      ColumnSpec(table.header, "stance");
      if ExampleSet(path, read, count, sample).Ok? {
        var picks := sample(|table.rows|, count);
        assert IsSample(picks, |table.rows|, count);
      }
    }
  }

  /** The body of the example-file loop, which runs once, on the first example
      file: delimiter, columns, row count, sample, then the exemplars. */
  method ReadExemplars(path: string, read: (string, char) -> Table, count: int, sample: (nat, nat) -> seq<nat>)
    returns (r: Result<seq<Exemplar>>)
    requires ValidSampler(sample)
    ensures r == ExampleSet(path, read, count, sample)
  {
    var delimiter := Delimiter(path);
    if delimiter.Err? {
      return Err(delimiter.error);
    }
    var table := read(path, delimiter.value);
    var tweetColumn := Column(table.header, "tweet");
    var targetColumn := Column(table.header, "target");
    var stanceColumn := Column(table.header, "stance");
    if !Truthy(tweetColumn) || !Truthy(targetColumn) || !Truthy(stanceColumn) {
      return Err(MissingColumns(path));
    }
    var rows := table.rows;
    if |rows| < count {
      return Err(InsufficientRows(path, count));
    }
    if count < 0 {
      return Err(NegativeSampleSize);
    }
    var picks := sample(|rows|, count);
    assert IsSample(picks, |rows|, count);
    var examples: seq<Exemplar> := [];
    var picked := Pick(rows, picks, tweetColumn.value, targetColumn.value, stanceColumn.value);
    examples := examples + picked;
    assert examples == picked;
    r := Ok(examples);
  }

  // ---------------------------------------------------------------------------
  // Question files
  // ---------------------------------------------------------------------------

  /** One question file read as the run reads it. */
  function FileReader(read: (string, char) -> Table, meta: Meta, render: (string, string) -> string)
    : string -> Result<seq<PromptRecord>>
  {
    path => FileRecords(path, read, meta, render)
  }

  /** The records of the question files, file after file; the first file that
      fails aborts the run with its error. */
  function TestRecords(files: seq<string>, readFile: string -> Result<seq<PromptRecord>>): Result<seq<PromptRecord>>
    decreases |files|
  {
    if files == [] then Ok([])
    else
      match TestRecords(files[..|files| - 1], readFile)
      case Err(e) => Err(e)
      case Ok(records) =>
        match readFile(files[|files| - 1])
        case Err(e) => Err(e)
        case Ok(more) => Ok(records + more)
  }

  /** Reading `a` then `b`: an error in `a` stands, otherwise `b`'s records come
      after `a`'s, so the records are in file order and then row order. */
  lemma {:induction false} TestRecordsAppend(a: seq<string>, b: seq<string>,
                                             readFile: string -> Result<seq<PromptRecord>>)
    ensures TestRecords(a, readFile).Err? ==> TestRecords(a + b, readFile) == TestRecords(a, readFile)
    ensures TestRecords(a, readFile).Ok? ==>
              TestRecords(a + b, readFile) ==
                match TestRecords(b, readFile)
                case Err(e) => Err(e)
                case Ok(more) => Ok(TestRecords(a, readFile).value + more)
    decreases |b|
  {
    if b == [] {
      assert a + b == a;
      if TestRecords(a, readFile).Ok? {
        assert TestRecords(a, readFile).value + [] == TestRecords(a, readFile).value;
      }
    } else {
      var b' := b[..|b| - 1];
      assert (a + b)[..|a + b| - 1] == a + b';
      assert (a + b)[|a + b| - 1] == b[|b| - 1];
      TestRecordsAppend(a, b', readFile);
      var ra := TestRecords(a, readFile);
      var rb' := TestRecords(b', readFile);
      if ra.Ok? && rb'.Ok? {
        var more := readFile(b[|b| - 1]);
        if more.Ok? {
          assert ra.value + rb'.value + more.value == ra.value + (rb'.value + more.value);
        }
      }
    }
  }

  /** The question files give records exactly when every one of them does; the
      error of a failing run is that of the first failing file; and every
      record of a successful run comes from one of the files. */
  lemma {:induction false} TestRecordsSpec(files: seq<string>, readFile: string -> Result<seq<PromptRecord>>)
    ensures TestRecords(files, readFile).Ok? <==> forall i :: 0 <= i < |files| ==> readFile(files[i]).Ok?
    ensures TestRecords(files, readFile).Err? ==>
              exists i :: 0 <= i < |files| &&
                (forall j :: 0 <= j < i ==> readFile(files[j]).Ok?) && readFile(files[i]) == TestRecords(files, readFile)
    ensures TestRecords(files, readFile).Ok? ==>
              forall record :: record in TestRecords(files, readFile).value ==>
                exists i :: 0 <= i < |files| && record in readFile(files[i]).value
    decreases |files|
  {
    if files != [] {
      var init := files[..|files| - 1];
      var last := files[|files| - 1];
      TestRecordsSpec(init, readFile);
      assert forall i :: 0 <= i < |init| ==> init[i] == files[i];
      var r := TestRecords(init, readFile);
      if r.Err? {
        var i :| 0 <= i < |init| && (forall j :: 0 <= j < i ==> readFile(init[j]).Ok?) && readFile(init[i]) == r;
        assert readFile(files[i]) == r;
      } else if readFile(last).Ok? {
        forall record | record in TestRecords(files, readFile).value
          ensures exists i :: 0 <= i < |files| && record in readFile(files[i]).value
        {
          if record in r.value {
            var i :| 0 <= i < |init| && record in readFile(init[i]).value;
            assert files[i] == init[i];
          } else {
            assert record in readFile(files[|files| - 1]).value;
          }
        }
      }
    }
  }

  /** Once the files before `i` have given records and file `i` fails, the run
      fails with file `i`'s error. */
  lemma TestRecordsAbort(files: seq<string>, i: int, readFile: string -> Result<seq<PromptRecord>>)
    requires 0 <= i < |files|
    requires TestRecords(files[..i], readFile).Ok? && readFile(files[i]).Err?
    ensures TestRecords(files, readFile) == readFile(files[i])
  {
    var head := files[..i + 1];
    assert head[..|head| - 1] == files[..i];
    assert head[|head| - 1] == files[i];
    assert TestRecords(head, readFile) == readFile(files[i]);
    TestRecordsAppend(head, files[i + 1..], readFile);
    assert head + files[i + 1..] == files;
  }

  /** The records the files give, counted: 0 for a file that fails. */
  function RecordTotal(files: seq<string>, readFile: string -> Result<seq<PromptRecord>>): nat
    decreases |files|
  {
    if files == [] then 0
    else RecordTotal(files[..|files| - 1], readFile) +
         (if readFile(files[|files| - 1]).Ok? then |readFile(files[|files| - 1]).value| else 0)
  }

  /** The records file `i` gives, none when it fails. */
  function RecordsAt(files: seq<string>, i: int, readFile: string -> Result<seq<PromptRecord>>): seq<PromptRecord>
    requires 0 <= i < |files|
  {
    if readFile(files[i]).Ok? then readFile(files[i]).value else []
  }

  /** When the question files all give records, the run lists them file after
      file and row after row: record `j` of file `i` sits after the records of
      the files before it, and nothing else is listed. */
  lemma {:induction false} TestRecordsLayout(files: seq<string>, readFile: string -> Result<seq<PromptRecord>>)
    requires TestRecords(files, readFile).Ok?
    ensures |TestRecords(files, readFile).value| == RecordTotal(files, readFile)
    ensures forall i :: 0 <= i < |files| ==>
              RecordTotal(files[..i], readFile) + |RecordsAt(files, i, readFile)| <= RecordTotal(files, readFile)
    ensures forall i, j :: 0 <= i < |files| && 0 <= j < |RecordsAt(files, i, readFile)| ==>
              TestRecords(files, readFile).value[RecordTotal(files[..i], readFile) + j] == RecordsAt(files, i, readFile)[j]
    decreases |files|
  {
    if files != [] {
      var last := |files| - 1;
      var init := files[..last];
      TestRecordsLayout(init, readFile);
      forall i | 0 <= i < |files|
        ensures RecordTotal(files[..i], readFile) + |RecordsAt(files, i, readFile)| <= RecordTotal(files, readFile)
      {
        RecordTotalPrefix(files, i, readFile);
      }
      var before := TestRecords(init, readFile).value;
      var all := TestRecords(files, readFile).value;
      assert all == before + readFile(files[last]).value;
      forall i, j | 0 <= i < |files| && 0 <= j < |RecordsAt(files, i, readFile)|
        ensures all[RecordTotal(files[..i], readFile) + j] == RecordsAt(files, i, readFile)[j]
      {
        var k := RecordTotal(files[..i], readFile) + j;
        if i < last {
          assert files[..i] == init[..i];
          assert RecordsAt(files, i, readFile) == RecordsAt(init, i, readFile);
          assert k < |before| && before[k] == RecordsAt(init, i, readFile)[j];
        } else {
          assert files[..i] == init;
          assert k - |before| == j;
        }
      }
    }
  }

  /** The records of a prefix of the files never outnumber those of all of them. */
  lemma {:induction false} RecordTotalPrefix(files: seq<string>, i: int, readFile: string -> Result<seq<PromptRecord>>)
    requires 0 <= i < |files|
    ensures RecordTotal(files[..i], readFile) + |RecordsAt(files, i, readFile)| <= RecordTotal(files, readFile)
    decreases |files|
  {
    var last := |files| - 1;
    if i < last {
      assert files[..last][..i] == files[..i];
      assert RecordsAt(files[..last], i, readFile) == RecordsAt(files, i, readFile);
      RecordTotalPrefix(files[..last], i, readFile);
    } else {
      assert files[..last] == files[..i];
    }
  }

  /** The number of rows a data file holds, 0 when its extension is refused. */
  function RowsOf(path: string, read: (string, char) -> Table): nat {
    if Delimiter(path).Ok? then |read(path, Delimiter(path).value).rows| else 0
  }

  /** The rows of the files, added up. */
  function RowTotal(files: seq<string>, read: (string, char) -> Table): nat
    decreases |files|
  {
    if files == [] then 0 else RowTotal(files[..|files| - 1], read) + RowsOf(files[|files| - 1], read)
  }

  /** When every question file is read, each gives one record per row, so the
      records counted are the rows counted. */
  lemma {:induction false} RecordTotalIsRowTotal(files: seq<string>, read: (string, char) -> Table, meta: Meta,
                                                 render: (string, string) -> string)
    requires forall i :: 0 <= i < |files| ==> FileRecords(files[i], read, meta, render).Ok?
    ensures RecordTotal(files, FileReader(read, meta, render)) == RowTotal(files, read)
    decreases |files|
  {
    if files != [] {
      var last := |files| - 1;
      var readFile := FileReader(read, meta, render);
      assert forall i :: 0 <= i < last ==> files[..last][i] == files[i];
      RecordTotalIsRowTotal(files[..last], read, meta, render);
      FileRecordsCount(files[last], read, meta, render);
      assert readFile(files[last]) == FileRecords(files[last], read, meta, render);
      assert RecordTotal(files, readFile) == RecordTotal(files[..last], readFile) + |readFile(files[last]).value|;
    }
  }

  /** Record `j` of an accepted file is its row `j`, copied and rendered. */
  lemma FileRecordOfRow(path: string, read: (string, char) -> Table, meta: Meta, render: (string, string) -> string,
                        j: int)
    requires FileRecords(path, read, meta, render).Ok?
    requires 0 <= j < RowsOf(path, read)
    ensures j < |FileRecords(path, read, meta, render).value|
    ensures CopiedFrom(FileRecords(path, read, meta, render).value[j], path, read, j)
    ensures Rendered(FileRecords(path, read, meta, render).value[j], meta, render)
  {
    FileRecordsSpec(path, read, meta, render);
  }

  /** An accepted file gives as many records as it has rows. */
  lemma FileRecordsCount(path: string, read: (string, char) -> Table, meta: Meta, render: (string, string) -> string)
    requires FileRecords(path, read, meta, render).Ok?
    ensures |FileRecords(path, read, meta, render).value| == RowsOf(path, read)
  {
    FileRecordsSpec(path, read, meta, render);
  }

  // ---------------------------------------------------------------------------
  // The run
  // ---------------------------------------------------------------------------

  /** The resolved template function with the sampled exemplars fixed, as the
      function of tweet and target the row loop applies. */
  function FewShotRenderer(template: (string, string, seq<Exemplar>) -> string, examples: seq<Exemplar>)
    : (string, string) -> string
  {
    (tweet: string, target: string) => template(tweet, target, examples)
  }

  /** The output file name: the candidate is part of it for every dataset but
      semeval2016, printed as "None" when there is none. */
  function FewShotFileName(dataset: string, model: string, candidate: Option<string>): string {
    dataset + "_" + model + CandidatePart(dataset, candidate) + FewShotSuffix
  }

  /** What the file name shows of the candidate. */
  function CandidatePart(dataset: string, candidate: Option<string>): string {
    if dataset == "semeval2016" then "" else "_" + Show(candidate)
  }

  /** How every few-shot output file name ends. */
  const FewShotSuffix: string := "_few_shot" + "_prompts.json"

  /** The output file, in the subdirectory named after the template's kind. */
  function FewShotPath(outputDir: string, dataset: string, model: string, candidate: Option<string>): string {
    PathJoin(outputDir, PromptType(TemplateName(dataset, model, FewShot))) + "/" +
    FewShotFileName(dataset, model, candidate)
  }

  /** What a run produces: the template lookup first, then the stages that use
      the found template function. */
  function FewShotRun(directory: string, outputDir: string, dataset: string, model: string, candidate: Option<string>,
                      count: int, listing: seq<string>, read: (string, char) -> Table, sample: (nat, nat) -> seq<nat>)
    : Result<Output>
    requires ValidSampler(sample)
  {
    match Resolve(dataset, model, FewShot)
    case Err(e) => Err(e)
    case Ok(t) =>
      FewShotStages(FewShotFunction(t.id), directory, outputDir, dataset, model, candidate, count, listing, read, sample)
  }

  /** The stages after the lookup: candidate check and file selection, the
      exemplars of the first example file, the question files' records, and
      the output file. */
  function FewShotStages(template: (string, string, seq<Exemplar>) -> string, directory: string, outputDir: string,
                         dataset: string, model: string, candidate: Option<string>, count: int, listing: seq<string>,
                         read: (string, char) -> Table, sample: (nat, nat) -> seq<nat>): Result<Output>
    requires ValidSampler(sample)
  {
    match SelectInputs(dataset, candidate, directory, listing)
    case Err(e) => Err(e)
    case Ok(files) =>
      match ExampleSet(files.examples[0], read, count, sample)
      case Err(e) => Err(e)
      case Ok(examples) =>
        match TestRecords(files.tests, FileReader(read, Meta(dataset, model, candidate), FewShotRenderer(template, examples)))
        case Err(e) => Err(e)
        case Ok(records) => Ok(Output(FewShotPath(outputDir, dataset, model, candidate), records))
  }

  /** The generator: lookup, file selection, exemplars, then the nested loop
      over question files and their rows, then the output file. */
  method GenerateFewShotPrompts(directory: string, outputDir: string, dataset: string, model: string,
                                candidate: Option<string>, count: int, listing: seq<string>,
                                read: (string, char) -> Table, sample: (nat, nat) -> seq<nat>)
    returns (r: Result<Output>)
    requires ValidSampler(sample)
    ensures r == FewShotRun(directory, outputDir, dataset, model, candidate, count, listing, read, sample)
  {
    var template := Resolve(dataset, model, FewShot);
    if template.Err? {
      return Err(template.error);
    }
    var files := SelectInputs(dataset, candidate, directory, listing);
    if files.Err? {
      return Err(files.error);
    }
    var examples := ReadExemplars(files.value.examples[0], read, count, sample);
    if examples.Err? {
      return Err(examples.error);
    }
    var meta := Meta(dataset, model, candidate);
    var prompts := ReadTestFiles(files.value.tests, read, meta, FewShotRenderer(FewShotFunction(template.value.id), examples.value));
    if prompts.Err? {
      return Err(prompts.error);
    }
    var outputFile := FewShotPath(outputDir, dataset, model, candidate);
    r := Ok(Output(outputFile, prompts.value));
  }

  /** The loop over the question files, each read row by row, the records of
      all of them collected in order. */
  method ReadTestFiles(tests: seq<string>, read: (string, char) -> Table, meta: Meta, render: (string, string) -> string)
    returns (r: Result<seq<PromptRecord>>)
    ensures r == TestRecords(tests, FileReader(read, meta, render))
  {
    var readFile := FileReader(read, meta, render);
    var prompts: seq<PromptRecord> := [];
    var i := 0;
    while i < |tests|
      invariant 0 <= i <= |tests|
      invariant TestRecords(tests[..i], readFile) == Ok(prompts)
    {
      var records := ReadFile(tests[i], read, meta, render);
      if records.Err? {
        TestRecordsAbort(tests, i, readFile);
        return Err(records.error);
      }
      assert tests[..i + 1][..i] == tests[..i];
      prompts := prompts + records.value;
      i := i + 1;
    }
    assert tests[..i] == tests;
    r := Ok(prompts);
  }

  /** Two readers that agree on the question files give the same records. */
  lemma {:induction false} TestRecordsCongruent(files: seq<string>, readFile1: string -> Result<seq<PromptRecord>>,
                                                readFile2: string -> Result<seq<PromptRecord>>)
    requires forall i :: 0 <= i < |files| ==> readFile1(files[i]) == readFile2(files[i])
    ensures TestRecords(files, readFile1) == TestRecords(files, readFile2)
    decreases |files|
  {
    if files != [] {
      var init := files[..|files| - 1];
      assert forall i :: 0 <= i < |init| ==> init[i] == files[i];
      TestRecordsCongruent(init, readFile1, readFile2);
    }
  }

  // ---------------------------------------------------------------------------
  // Properties of a run
  // ---------------------------------------------------------------------------

  /** The errors file selection, sampling and reading raise; none is a lookup error. */
  lemma StageErrors(dataset: string, candidate: Option<string>, directory: string, listing: seq<string>,
                    path: string, read: (string, char) -> Table, count: int, sample: (nat, nat) -> seq<nat>,
                    tests: seq<string>, meta: Meta, render: (string, string) -> string)
    requires ValidSampler(sample)
    ensures SelectInputs(dataset, candidate, directory, listing).Err? ==>
              !SelectInputs(dataset, candidate, directory, listing).error.UnknownTemplate?
    ensures ExampleSet(path, read, count, sample).Err? ==> !ExampleSet(path, read, count, sample).error.UnknownTemplate?
    ensures TestRecords(tests, FileReader(read, meta, render)).Err? ==>
              !TestRecords(tests, FileReader(read, meta, render)).error.UnknownTemplate?
  {
    var readFile := FileReader(read, meta, render);
    TestRecordsSpec(tests, readFile);
    if TestRecords(tests, readFile).Err? {
      var i :| 0 <= i < |tests| && readFile(tests[i]) == TestRecords(tests, readFile);
      FileRecordsErrors(tests[i], read, meta, render);
    }
  }

  /** A run fails with `UnknownTemplate` exactly when no few-shot template has
      the composed name, whatever the directory holds: the lookup comes before
      the directory is listed. */
  lemma FewShotUnknownTemplate(directory: string, outputDir: string, dataset: string, model: string,
                               candidate: Option<string>, count: int, listing: seq<string>,
                               read: (string, char) -> Table, sample: (nat, nat) -> seq<nat>)
    requires ValidSampler(sample)
    ensures FewShotRun(directory, outputDir, dataset, model, candidate, count, listing, read, sample) ==
              Err(UnknownTemplate(TemplateName(dataset, model, FewShot))) <==>
            forall t: Template :: DefinedName(t) != TemplateName(dataset, model, FewShot)
  {
    ResolveSpec(dataset, model, FewShot);
    var t := Resolve(dataset, model, FewShot);
    var files := SelectInputs(dataset, candidate, directory, listing);
    if t.Ok? && files.Ok? {
      var examples := ExampleSet(files.value.examples[0], read, count, sample);
      var template := FewShotFunction(t.value.id);
      var render := if examples.Ok? then FewShotRenderer(template, examples.value) else FewShotRenderer(template, []);
      StageErrors(dataset, candidate, directory, listing, files.value.examples[0], read, count, sample,
                  files.value.tests, Meta(dataset, model, candidate), render);
    } else if t.Ok? {
      StageErrors(dataset, candidate, directory, listing, "", read, count, sample,
                  [], Meta(dataset, model, candidate), FewShotRenderer(FewShotFunction(t.value.id), []));
    }
  }

  /** Once the template is found, a candidate-scoped dataset without a truthy
      candidate fails with `MissingCandidate`, whatever the directory holds. */
  lemma FewShotMissingCandidate(directory: string, outputDir: string, dataset: string, model: string,
                                candidate: Option<string>, count: int, listing: seq<string>,
                                read: (string, char) -> Table, sample: (nat, nat) -> seq<nat>)
    requires ValidSampler(sample)
    requires Resolve(dataset, model, FewShot).Ok?
    requires CandidateScoped(dataset) && !Truthy(candidate)
    ensures FewShotRun(directory, outputDir, dataset, model, candidate, count, listing, read, sample) ==
            Err(MissingCandidate(dataset))
  {
    SelectInputsSpec(dataset, candidate, directory, listing, "");
  }

  /** In a successful run every record carries the run's metadata, a non-empty
      tweet and target, and the resolved template applied to them and to one
      and the same list of exemplars: the `count` exemplars sampled from the
      first example file. */
  lemma FewShotRecords(directory: string, outputDir: string, dataset: string, model: string,
                       candidate: Option<string>, count: int, listing: seq<string>,
                       read: (string, char) -> Table, sample: (nat, nat) -> seq<nat>)
    requires ValidSampler(sample)
    requires FewShotRun(directory, outputDir, dataset, model, candidate, count, listing, read, sample).Ok?
    ensures Resolve(dataset, model, FewShot).Ok? && SelectInputs(dataset, candidate, directory, listing).Ok?
    ensures var files := SelectInputs(dataset, candidate, directory, listing).value;
            ExampleSet(files.examples[0], read, count, sample).Ok? &&
            var id := Resolve(dataset, model, FewShot).value.id;
            var examples := ExampleSet(files.examples[0], read, count, sample).value;
            var out := FewShotRun(directory, outputDir, dataset, model, candidate, count, listing, read, sample).value;
            |examples| == count &&
            forall record :: record in out.records ==>
              record.dataset == dataset && record.model == model && record.candidate == candidate &&
              record.tweet != "" && record.target != "" &&
              record.prompt == FewShotTemplate(id, record.tweet, record.target, examples)
  {
    var id := Resolve(dataset, model, FewShot).value.id;
    var files := SelectInputs(dataset, candidate, directory, listing).value;
    var examples := ExampleSet(files.examples[0], read, count, sample).value;
    ExampleSetSpec(files.examples[0], read, count, sample);
    var meta := Meta(dataset, model, candidate);
    var render := FewShotRenderer(FewShotFunction(id), examples);
    var readFile := FileReader(read, meta, render);
    TestRecordsSpec(files.tests, readFile);
    var records := TestRecords(files.tests, readFile).value;
    forall record | record in records
      ensures Rendered(record, meta, render)
      ensures record.prompt == FewShotTemplate(id, record.tweet, record.target, examples)
    {
      var i :| 0 <= i < |files.tests| && record in readFile(files.tests[i]).value;
      FileRecordsRendered(files.tests[i], read, meta, render);
      FewShotFunctionIsTemplate(id, record.tweet, record.target, examples);
    }
  }

  /** Where row `j` of question file `i` lands in the output: after the rows of
      the question files before it. */
  function RowPosition(files: seq<string>, read: (string, char) -> Table, i: int, j: int): int
    requires 0 <= i <= |files|
  {
    RowTotal(files[..i], read) + j
  }

  /** A run with any template function writes one record per question row,
      question file after question file and row after row; the record of row
      `j` of file `i` carries that row's tweet and target, the run's metadata
      and the template applied to them and the exemplars. */
  lemma StagesRowRecords(template: (string, string, seq<Exemplar>) -> string, directory: string, outputDir: string,
                         dataset: string, model: string, candidate: Option<string>, count: int, listing: seq<string>,
                         read: (string, char) -> Table, sample: (nat, nat) -> seq<nat>)
    requires ValidSampler(sample)
    requires FewShotStages(template, directory, outputDir, dataset, model, candidate, count, listing, read, sample).Ok?
    ensures SelectInputs(dataset, candidate, directory, listing).Ok?
    ensures var files := SelectInputs(dataset, candidate, directory, listing).value;
            ExampleSet(files.examples[0], read, count, sample).Ok? &&
            var examples := ExampleSet(files.examples[0], read, count, sample).value;
            var out := FewShotStages(template, directory, outputDir, dataset, model, candidate, count, listing, read,
                                     sample).value;
            |out.records| == RowTotal(files.tests, read) &&
            forall i, j :: 0 <= i < |files.tests| && 0 <= j < RowsOf(files.tests[i], read) ==>
              RowPosition(files.tests, read, i, j) < |out.records| &&
              CopiedFrom(out.records[RowPosition(files.tests, read, i, j)], files.tests[i], read, j) &&
              Rendered(out.records[RowPosition(files.tests, read, i, j)], Meta(dataset, model, candidate),
                       FewShotRenderer(template, examples))
  {
    var files := SelectInputs(dataset, candidate, directory, listing).value;
    var examples := ExampleSet(files.examples[0], read, count, sample).value;
    TestRowRecords(files.tests, read, Meta(dataset, model, candidate), FewShotRenderer(template, examples));
  }

  /** Reading the question files gives one record per row, file after file and
      row after row, each copied from its row and rendered. */
  lemma TestRowRecords(tests: seq<string>, read: (string, char) -> Table, meta: Meta, render: (string, string) -> string)
    requires TestRecords(tests, FileReader(read, meta, render)).Ok?
    ensures var records := TestRecords(tests, FileReader(read, meta, render)).value;
            |records| == RowTotal(tests, read) &&
            forall i, j :: 0 <= i < |tests| && 0 <= j < RowsOf(tests[i], read) ==>
              RowPosition(tests, read, i, j) < |records| &&
              CopiedFrom(records[RowPosition(tests, read, i, j)], tests[i], read, j) &&
              Rendered(records[RowPosition(tests, read, i, j)], meta, render)
  {
    var readFile := FileReader(read, meta, render);
    TestRecordsSpec(tests, readFile);
    TestRecordsLayout(tests, readFile);
    RecordTotalIsRowTotal(tests, read, meta, render);
    forall i, j | 0 <= i < |tests| && 0 <= j < RowsOf(tests[i], read)
      ensures RowPosition(tests, read, i, j) < |TestRecords(tests, readFile).value|
      ensures CopiedFrom(TestRecords(tests, readFile).value[RowPosition(tests, read, i, j)], tests[i], read, j)
      ensures Rendered(TestRecords(tests, readFile).value[RowPosition(tests, read, i, j)], meta, render)
    {
      TestRowRecord(tests, read, meta, render, i, j);
    }
  }

  /** The record of row `j` of question file `i`, once the files have been
      laid out. */
  lemma TestRowRecord(tests: seq<string>, read: (string, char) -> Table, meta: Meta, render: (string, string) -> string,
                      i: int, j: int)
    requires TestRecords(tests, FileReader(read, meta, render)).Ok?
    requires forall k :: 0 <= k < |tests| ==> FileRecords(tests[k], read, meta, render).Ok?
    requires 0 <= i < |tests| && 0 <= j < RowsOf(tests[i], read)
    ensures var records := TestRecords(tests, FileReader(read, meta, render)).value;
            RowPosition(tests, read, i, j) < |records| &&
            CopiedFrom(records[RowPosition(tests, read, i, j)], tests[i], read, j) &&
            Rendered(records[RowPosition(tests, read, i, j)], meta, render)
  {
    var readFile := FileReader(read, meta, render);
    var records := TestRecords(tests, readFile).value;
    var own := FileRecords(tests[i], read, meta, render).value;
    PrefixRowTotal(tests, read, meta, render, i);
    FileRecordOfRow(tests[i], read, meta, render, j);
    assert readFile(tests[i]) == FileRecords(tests[i], read, meta, render);
    assert RecordsAt(tests, i, readFile) == own;
    TestRecordAt(tests, readFile, i, j);
    var p := RowPosition(tests, read, i, j);
    assert p == RecordTotal(tests[..i], readFile) + j;
    assert records[p] == own[j];
  }

  /** Record `j` of file `i` sits after the records of the files before it. */
  lemma TestRecordAt(files: seq<string>, readFile: string -> Result<seq<PromptRecord>>, i: int, j: int)
    requires TestRecords(files, readFile).Ok?
    requires 0 <= i < |files| && 0 <= j < |RecordsAt(files, i, readFile)|
    ensures RecordTotal(files[..i], readFile) + j < |TestRecords(files, readFile).value|
    ensures TestRecords(files, readFile).value[RecordTotal(files[..i], readFile) + j] == RecordsAt(files, i, readFile)[j]
  {
    TestRecordsLayout(files, readFile);
  }

  /** When every question file is read, the records of the files before `i`
      are the rows of those files. */
  lemma PrefixRowTotal(tests: seq<string>, read: (string, char) -> Table, meta: Meta, render: (string, string) -> string,
                       i: int)
    requires 0 <= i <= |tests|
    requires forall k :: 0 <= k < |tests| ==> FileRecords(tests[k], read, meta, render).Ok?
    ensures RecordTotal(tests[..i], FileReader(read, meta, render)) == RowTotal(tests[..i], read)
  {
    assert forall k :: 0 <= k < i ==> tests[..i][k] == tests[k];
    RecordTotalIsRowTotal(tests[..i], read, meta, render);
  }


  /** A successful run writes one record per question row, question file after
      question file and row after row: the record of row `j` of file `i` sits
      after the rows of the files before it and carries that row's tweet and
      target, the run's dataset, model and candidate, and the resolved
      few-shot template applied to them and the sampled exemplars. */
  lemma FewShotRecordOfRow(directory: string, outputDir: string, dataset: string, model: string,
                           candidate: Option<string>, count: int, listing: seq<string>,
                           read: (string, char) -> Table, sample: (nat, nat) -> seq<nat>)
    requires ValidSampler(sample)
    requires FewShotRun(directory, outputDir, dataset, model, candidate, count, listing, read, sample).Ok?
    ensures Resolve(dataset, model, FewShot).Ok? && SelectInputs(dataset, candidate, directory, listing).Ok?
    ensures var files := SelectInputs(dataset, candidate, directory, listing).value;
            ExampleSet(files.examples[0], read, count, sample).Ok? &&
            var id := Resolve(dataset, model, FewShot).value.id;
            var examples := ExampleSet(files.examples[0], read, count, sample).value;
            var out := FewShotRun(directory, outputDir, dataset, model, candidate, count, listing, read, sample).value;
            |out.records| == RowTotal(files.tests, read) &&
            forall i, j :: 0 <= i < |files.tests| && 0 <= j < RowsOf(files.tests[i], read) ==>
              RowPosition(files.tests, read, i, j) < |out.records| &&
              var record := out.records[RowPosition(files.tests, read, i, j)];
              CopiedFrom(record, files.tests[i], read, j) &&
              record.dataset == dataset && record.model == model && record.candidate == candidate &&
              record.prompt == FewShotTemplate(id, record.tweet, record.target, examples)
  {
    var id := Resolve(dataset, model, FewShot).value.id;
    StagesRowRecords(FewShotFunction(id), directory, outputDir, dataset, model, candidate, count, listing, read, sample);
    var files := SelectInputs(dataset, candidate, directory, listing).value;
    var examples := ExampleSet(files.examples[0], read, count, sample).value;
    var out := FewShotRun(directory, outputDir, dataset, model, candidate, count, listing, read, sample).value;
    forall i, j | 0 <= i < |files.tests| && 0 <= j < RowsOf(files.tests[i], read)
      ensures var record := out.records[RowPosition(files.tests, read, i, j)];
              record.prompt == FewShotTemplate(id, record.tweet, record.target, examples)
    {
      var record := out.records[RowPosition(files.tests, read, i, j)];
      FewShotFunctionIsTemplate(id, record.tweet, record.target, examples);
    }
  }

  /** Of the example files only the first is read: two runs whose readers agree
      on the first example file and on the question files give the same
      result, whatever the other example files hold. */
  lemma FewShotReadsFirstExampleFile(directory: string, outputDir: string, dataset: string, model: string,
                                     candidate: Option<string>, count: int, listing: seq<string>,
                                     read1: (string, char) -> Table, read2: (string, char) -> Table,
                                     sample: (nat, nat) -> seq<nat>)
    requires ValidSampler(sample)
    requires SelectInputs(dataset, candidate, directory, listing).Ok?
    requires var files := SelectInputs(dataset, candidate, directory, listing).value;
             (forall delimiter :: read1(files.examples[0], delimiter) == read2(files.examples[0], delimiter)) &&
             forall i, delimiter :: 0 <= i < |files.tests| ==>
               read1(files.tests[i], delimiter) == read2(files.tests[i], delimiter)
    ensures FewShotRun(directory, outputDir, dataset, model, candidate, count, listing, read1, sample) ==
            FewShotRun(directory, outputDir, dataset, model, candidate, count, listing, read2, sample)
  {
    var t := Resolve(dataset, model, FewShot);
    if t.Ok? {
      StagesReadFirstExampleFile(FewShotFunction(t.value.id), directory, outputDir, dataset, model, candidate, count,
                                 listing, read1, read2, sample);
    }
  }

  /** `FewShotReadsFirstExampleFile` for any template function. */
  lemma StagesReadFirstExampleFile(template: (string, string, seq<Exemplar>) -> string, directory: string,
                                   outputDir: string, dataset: string, model: string, candidate: Option<string>,
                                   count: int, listing: seq<string>, read1: (string, char) -> Table,
                                   read2: (string, char) -> Table, sample: (nat, nat) -> seq<nat>)
    requires ValidSampler(sample)
    requires SelectInputs(dataset, candidate, directory, listing).Ok?
    requires var files := SelectInputs(dataset, candidate, directory, listing).value;
             (forall delimiter :: read1(files.examples[0], delimiter) == read2(files.examples[0], delimiter)) &&
             forall i, delimiter :: 0 <= i < |files.tests| ==>
               read1(files.tests[i], delimiter) == read2(files.tests[i], delimiter)
    ensures FewShotStages(template, directory, outputDir, dataset, model, candidate, count, listing, read1, sample) ==
            FewShotStages(template, directory, outputDir, dataset, model, candidate, count, listing, read2, sample)
  {
    var files := SelectInputs(dataset, candidate, directory, listing).value;
    var examples := ExampleSet(files.examples[0], read1, count, sample);
    assert examples == ExampleSet(files.examples[0], read2, count, sample);
    if examples.Ok? {
      TestFilesReadOnly(files.tests, read1, read2, Meta(dataset, model, candidate),
                        FewShotRenderer(template, examples.value));
    }
  }

  /** The test stage sees only the test files' contents, whatever the renderer. */
  lemma TestFilesReadOnly(tests: seq<string>, read1: (string, char) -> Table, read2: (string, char) -> Table,
                          meta: Meta, render: (string, string) -> string)
    requires forall i, delimiter :: 0 <= i < |tests| ==> read1(tests[i], delimiter) == read2(tests[i], delimiter)
    ensures TestRecords(tests, FileReader(read1, meta, render)) == TestRecords(tests, FileReader(read2, meta, render))
  {
    forall i | 0 <= i < |tests|
      ensures FileReader(read1, meta, render)(tests[i]) == FileReader(read2, meta, render)(tests[i])
    {
      FileRecordsReadsOnly(tests[i], read1, read2, meta, render);
    }
    TestRecordsCongruent(tests, FileReader(read1, meta, render), FileReader(read2, meta, render));
  }

  /** The output file name starts with the dataset and model and ends in
      "_few_shot_prompts.json"; for semeval2016 nothing comes between, whatever
      the candidate; for every other dataset the printed candidate does,
      "None" when there is none. */
  lemma FewShotFileNameSpec(dataset: string, model: string, candidate: Option<string>)
    ensures StartsWith(FewShotFileName(dataset, model, candidate), dataset + "_" + model)
    ensures EndsWith(FewShotFileName(dataset, model, candidate), FewShotSuffix)
    ensures dataset == "semeval2016" ==>
              FewShotFileName(dataset, model, candidate) == FewShotFileName(dataset, model, None)
    ensures dataset != "semeval2016" ==>
              EndsWith(FewShotFileName(dataset, model, candidate), "_" + Show(candidate) + FewShotSuffix)
    ensures dataset == "semeval2016" ==>
              |FewShotFileName(dataset, model, candidate)| == |dataset + "_" + model| + |FewShotSuffix|
    ensures dataset != "semeval2016" ==>
              |FewShotFileName(dataset, model, candidate)| ==
              |dataset + "_" + model| + |"_" + Show(candidate)| + |FewShotSuffix|
  {
    var stem := dataset + "_" + model;
    var tail := CandidatePart(dataset, candidate) + FewShotSuffix;
    assert FewShotFileName(dataset, model, candidate) == stem + tail;
    Concat(stem, tail);
    Concat(stem + CandidatePart(dataset, candidate), FewShotSuffix);
  }

  /** A found few-shot template puts the output in the "few_shot"
      subdirectory of the output directory. */
  lemma FewShotPathSpec(outputDir: string, dataset: string, model: string, candidate: Option<string>)
    requires Resolve(dataset, model, FewShot).Ok?
    ensures FewShotPath(outputDir, dataset, model, candidate) ==
            PathJoin(outputDir, "few_shot") + "/" + FewShotFileName(dataset, model, candidate)
  {
    FewShotPromptType(dataset, model);
  }
}
