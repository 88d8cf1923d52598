/**
  `generate_zero_shot_prompts`: resolve the zero-shot template from the dataset
  and model names, read the one question file, render one prompt per row, and
  name the output file.

  The input file's contents are the parameter `read` (path and delimiter to
  parsed table); writing the JSON is left out, the run returns the path it
  would write and the records it would write there.
 */
module ZeroShotDriver {
  import opened Common
  import opened Strings
  import opened Prompts
  import opened Registry
  import opened RowReader

  /** The output file: the candidate is part of its name only when it is truthy. */
  function ZeroShotPath(outputDir: string, dataset: string, model: string, candidate: Option<string>): string {
    if Truthy(candidate) then outputDir + "/" + dataset + "_" + model + "_" + candidate.value + "_prompts.json"
    else outputDir + "/" + dataset + "_" + model + "_prompts.json"
  }

  /** What a run produces: the template lookup comes first, then the input file. */
  function ZeroShotRun(inputFile: string, outputDir: string, dataset: string, model: string,
                       candidate: Option<string>, read: (string, char) -> Table): Result<Output>
  {
    match Resolve(dataset, model, ZeroShot)
    case Err(e) => Err(e)
    case Ok(t) =>
      match FileRecords(inputFile, read, Meta(dataset, model, candidate), ZeroShotFunction(t.id))
      case Err(e) => Err(e)
      case Ok(records) => Ok(Output(ZeroShotPath(outputDir, dataset, model, candidate), records))
  }

  /** The generator: look the template up, read the file row by row, then
      choose the output file. */
  method GenerateZeroShotPrompts(inputFile: string, outputDir: string, dataset: string, model: string,
                                 candidate: Option<string>, read: (string, char) -> Table)
    returns (r: Result<Output>)
    ensures r == ZeroShotRun(inputFile, outputDir, dataset, model, candidate, read)
  {
    var template := Resolve(dataset, model, ZeroShot);
    if template.Err? {
      return Err(template.error);
    }
    var prompts := ReadFile(inputFile, read, Meta(dataset, model, candidate), ZeroShotFunction(template.value.id));
    if prompts.Err? {
      return Err(prompts.error);
    }
    var outputFile := ZeroShotPath(outputDir, dataset, model, candidate);
    r := Ok(Output(outputFile, prompts.value));
  }

  /** A run fails with `UnknownTemplate` exactly when no zero-shot template has
      the composed name, whatever the input file holds (the file is not opened
      before the lookup). */
  lemma ZeroShotUnknownTemplate(inputFile: string, outputDir: string, dataset: string, model: string,
                                candidate: Option<string>, read: (string, char) -> Table)
    ensures ZeroShotRun(inputFile, outputDir, dataset, model, candidate, read) ==
              Err(UnknownTemplate(TemplateName(dataset, model, ZeroShot))) <==>
            forall t: Template :: DefinedName(t) != TemplateName(dataset, model, ZeroShot)
  {
    ResolveSpec(dataset, model, ZeroShot);
    var t := Resolve(dataset, model, ZeroShot);
    if t.Ok? {
      FileRecordsErrors(inputFile, read, Meta(dataset, model, candidate), ZeroShotFunction(t.value.id));
    }
  }

  /** Once the template is found, the run fails exactly as reading the file
      fails: `UnsupportedFormat` for a refused extension, `MissingColumns` when
      the header lacks "tweet" or "target" in any case, and `InvalidRow` when
      some row has a missing or empty tweet or target. */
  lemma ZeroShotFileErrors(inputFile: string, outputDir: string, dataset: string, model: string,
                           candidate: Option<string>, read: (string, char) -> Table)
    requires Resolve(dataset, model, ZeroShot).Ok?
    ensures ZeroShotRun(inputFile, outputDir, dataset, model, candidate, read) == Err(UnsupportedFormat) <==>
              Delimiter(inputFile).Err?
    ensures ZeroShotRun(inputFile, outputDir, dataset, model, candidate, read) == Err(MissingColumns(inputFile)) <==>
              Delimiter(inputFile).Ok? &&
              var table := read(inputFile, Delimiter(inputFile).value);
              !(HasField(table.header, "tweet") && HasField(table.header, "target"))
    ensures ZeroShotRun(inputFile, outputDir, dataset, model, candidate, read) == Err(InvalidRow) <==>
              Delimiter(inputFile).Ok? &&
              var table := read(inputFile, Delimiter(inputFile).value);
              HasField(table.header, "tweet") && HasField(table.header, "target") &&
              exists i :: 0 <= i < |table.rows| &&
                !RowValid(table.rows[i], Column(table.header, "tweet").value, Column(table.header, "target").value)
  {
    var t := Resolve(dataset, model, ZeroShot).value;
    FileRecordsErrors(inputFile, read, Meta(dataset, model, candidate), ZeroShotFunction(t.id));
  }

  /** A successful run writes to `ZeroShotPath` one record per row of the
      file, in row order: the row's tweet and target verbatim, the run's
      dataset, model and candidate, and the resolved template applied to that
      tweet and target. */
  lemma ZeroShotRecords(inputFile: string, outputDir: string, dataset: string, model: string,
                        candidate: Option<string>, read: (string, char) -> Table)
    requires ZeroShotRun(inputFile, outputDir, dataset, model, candidate, read).Ok?
    ensures Resolve(dataset, model, ZeroShot).Ok? && Delimiter(inputFile).Ok?
    ensures var out := ZeroShotRun(inputFile, outputDir, dataset, model, candidate, read).value;
            var id := Resolve(dataset, model, ZeroShot).value.id;
            var table := read(inputFile, Delimiter(inputFile).value);
            out.path == ZeroShotPath(outputDir, dataset, model, candidate) &&
            |out.records| == |table.rows| &&
            forall i :: 0 <= i < |out.records| ==>
              out.records[i].dataset == dataset && out.records[i].model == model &&
              out.records[i].candidate == candidate &&
              out.records[i].prompt == ZeroShotTemplate(id, out.records[i].tweet, out.records[i].target) &&
              Some(out.records[i].tweet) == Cell(table.rows[i], Column(table.header, "tweet").value) &&
              Some(out.records[i].target) == Cell(table.rows[i], Column(table.header, "target").value)
  {
    var id := Resolve(dataset, model, ZeroShot).value.id;
    var meta := Meta(dataset, model, candidate);
    FileRecordsSpec(inputFile, read, meta, ZeroShotFunction(id));
    var records := FileRecords(inputFile, read, meta, ZeroShotFunction(id)).value;
    forall i | 0 <= i < |records|
      ensures records[i].prompt == ZeroShotTemplate(id, records[i].tweet, records[i].target)
    {
      ZeroShotFunctionIsTemplate(id, records[i].tweet, records[i].target);
    }
  }

  /** The candidate is metadata only: two runs that differ in the candidate
      succeed or fail together, with the same error, and write the same
      tweets, targets and prompts. */
  lemma ZeroShotCandidateMetadataOnly(inputFile: string, outputDir: string, dataset: string, model: string,
                                      candidate1: Option<string>, candidate2: Option<string>,
                                      read: (string, char) -> Table)
    ensures ZeroShotRun(inputFile, outputDir, dataset, model, candidate1, read).Ok? <==>
            ZeroShotRun(inputFile, outputDir, dataset, model, candidate2, read).Ok?
    ensures ZeroShotRun(inputFile, outputDir, dataset, model, candidate1, read).Err? ==>
              ZeroShotRun(inputFile, outputDir, dataset, model, candidate1, read) ==
              ZeroShotRun(inputFile, outputDir, dataset, model, candidate2, read)
    ensures ZeroShotRun(inputFile, outputDir, dataset, model, candidate1, read).Ok? ==>
              Texts(ZeroShotRun(inputFile, outputDir, dataset, model, candidate1, read).value.records) ==
              Texts(ZeroShotRun(inputFile, outputDir, dataset, model, candidate2, read).value.records)
  {
    var t := Resolve(dataset, model, ZeroShot);
    if t.Ok? {
      FileRecordsMetaIndependent(inputFile, read, Meta(dataset, model, candidate1), Meta(dataset, model, candidate2),
                                 ZeroShotFunction(t.value.id));
    }
  }

  /** The output file sits in the output directory and is named after the
      dataset and model; a truthy candidate is inserted before
      "_prompts.json", any other candidate leaves the name as without one. */
  lemma ZeroShotPathSpec(outputDir: string, dataset: string, model: string, candidate: Option<string>)
    ensures StartsWith(ZeroShotPath(outputDir, dataset, model, candidate), outputDir + "/" + dataset + "_" + model)
    ensures EndsWith(ZeroShotPath(outputDir, dataset, model, candidate), "_prompts.json")
    ensures Truthy(candidate) ==>
              EndsWith(ZeroShotPath(outputDir, dataset, model, candidate), "_" + candidate.value + "_prompts.json") &&
              |ZeroShotPath(outputDir, dataset, model, candidate)| ==
              |ZeroShotPath(outputDir, dataset, model, None)| + |candidate.value| + 1
    ensures !Truthy(candidate) ==>
              ZeroShotPath(outputDir, dataset, model, candidate) == ZeroShotPath(outputDir, dataset, model, None)
    ensures |ZeroShotPath(outputDir, dataset, model, None)| ==
            |outputDir + "/" + dataset + "_" + model| + |"_prompts.json"|
  {
    var stem := outputDir + "/" + dataset + "_" + model;
    if Truthy(candidate) {
      var path := stem + "_" + candidate.value + "_prompts.json";
      assert path == stem + ("_" + candidate.value + "_prompts.json");
      assert ZeroShotPath(outputDir, dataset, model, candidate) == path;
    } else {
      assert ZeroShotPath(outputDir, dataset, model, candidate) == stem + "_prompts.json";
    }
  }
}
