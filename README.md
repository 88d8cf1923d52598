# Stance-detection prompt generator, modelled in Dafny

The stance-detection prompt generator turns tweet datasets into prompts that
ask a language model for a tweet's stance toward a target. It has two parts:

- `stance_detection/prompts.py` has 24 template functions, one zero-shot
  and one few-shot template for each (dataset, model) pair. The datasets
  are SemEval 2016, twitter_stance_kemlm and P-Stance. The models are the
  plain one, Llama 2, Mistral and Qwen 2.
- Two generators, `generate_zero_shot_prompts.py` and
  `generate_few_shot_prompts.py`, pick the template by name. They read CSV
  or TSV files and call the template on every row. The result is a list
  of records, written out as JSON.

The model is split into these files:

| file | module | what it models |
|---|---|---|
| `common.dfy` | `Common` | the error values the generators raise (as a `Result`), Python truthiness, and how `f"{None}"` prints |
| `strings.dfy` | `Strings` | ASCII lower-casing, the substring test `in`, prefixes and suffixes, `str.join`, and decimal numbering of examples |
| `prompts.dfy` | `Prompts` | the 24 templates with their exact text, built from shared pieces: the framing, the tweet line, and the three kinds of example block (numbered, P-Stance and Qwen 2 chat turns) |
| `registry.dfy` | `Registry` | how a generator builds `<dataset>_<model>_<shot>_template` and looks it up among the module's globals |
| `row_reader.dfy` | `RowReader` | the parts both generators share: delimiter from `os.path.splitext`, case-insensitive header map, and the loop that turns each row into a prompt record |
| `zero_shot.dfy` | `ZeroShotDriver` | `generate_zero_shot_prompts` |
| `few_shot.dfy` | `FewShotDriver` | `generate_few_shot_prompts`: file selection, exemplar sampling from the first example file, the loop over test files, and the output path |

The generators are imperative, so each is a `method` with `while` loops. Each
method is proved equal to a specification function (`ZeroShotRun`,
`FewShotRun`, `RowRecords`, `TestRecords`, `ExampleSet`). The lemmas then
state what those functions promise: which errors occur and exactly when,
what every record holds, and where the output goes.

Parts of the environment become parameters:

- The file system becomes two parameters:
  - `read(path, delimiter)`, which gives a file's header and rows;
  - `listing`, the names `os.listdir` returns.
- `random.sample` becomes `sample(n, k)`. It must return `k` distinct
  indices below `n`.
- The templates are pure text functions. `globals()[name]` becomes the name
  lookup `Registry.Resolve`, followed by `Prompts.ZeroShotFunction` or
  `Prompts.FewShotFunction`.

Some behaviour of the source is modelled as written:

- The twitter_stance_kemlm Mistral templates end with `### Answer:`.
  All other Mistral templates end with `[/INST]` (`Prompts.Closer`).
- The SemEval 2016 and twitter_stance_kemlm Llama 2 few-shot templates open
  `<<SYS>>` but never close it.
- The name key `<dataset>_<model>` is not injective:
  - `("twitter_stance", "kemlm_llama2")` and `("twitter_stance_kemlm", "llama2")`
    select the same template (`Registry.KeyNotInjective`).
  - The plain SemEval 2016 and P-Stance templates can never be selected,
    because the key `<dataset>_<model>` always contains `_` and neither
    `semeval2016` nor `PStance` does (`Registry.PlainTemplateUnreachable`).
  - The plain twitter_stance_kemlm template is reachable, as
    `("twitter_stance", "kemlm")` and as `("twitter", "stance_kemlm")`
    (`Registry.TwitterPlainReachable`).
- For every dataset except semeval2016, the few-shot output file name
  contains the printed candidate. With no candidate it contains `None`.

## Model

| member | source | states |
|---|---|---|
| Prompts.SemEval2016ZeroShot | stance_detection/prompts.py:8-28 | `semeval2016_zero_shot_template` is framed by the plain opening and closing and contains the tweet line with the tweet verbatim, and names the target verbatim between double quotes |
| Prompts.SemEval2016FewShot | stance_detection/prompts.py:31-64 | `semeval2016_few_shot_template` is framed and contains the leader, the numbered example block, the trailer and the tweet line in that order, and names the target verbatim between double quotes |
| Prompts.SemEval2016Llama2ZeroShot | stance_detection/prompts.py:68-87 | the Llama 2 SemEval zero-shot prompt opens with `[INST] <<SYS>>`, closes with `[/INST]` and contains the tweet line, and names the target verbatim between double quotes |
| Prompts.SemEval2016Llama2FewShot | stance_detection/prompts.py:90-120 | the Llama 2 SemEval few-shot prompt is framed and has the numbered examples right before the tweet line, and names the target verbatim between double quotes |
| Prompts.SemEval2016MistralZeroShot | stance_detection/prompts.py:124-141 | the Mistral SemEval zero-shot prompt opens with `[INST]`, closes with `[/INST]` and contains the tweet line, and names the target verbatim between double quotes |
| Prompts.SemEval2016MistralFewShot | stance_detection/prompts.py:144-174 | the Mistral SemEval few-shot prompt is framed and has the numbered examples right before the tweet line, and names the target verbatim between double quotes |
| Prompts.SemEval2016Qwen2ZeroShot | stance_detection/prompts.py:178-199 | the Qwen 2 SemEval zero-shot prompt opens a system turn, closes with `<\|im_end\|>` and contains the tweet line, and names the target verbatim between double quotes |
| Prompts.SemEval2016Qwen2FewShot | stance_detection/prompts.py:202-238 | the Qwen 2 SemEval few-shot prompt is framed and has the chat-turn examples right before the tweet line, and names the target verbatim between double quotes |
| Prompts.TwitterStanceKemlmZeroShot | stance_detection/prompts.py:242-260 | the plain twitter zero-shot prompt is framed and contains the tweet line, and names the target verbatim between double quotes |
| Prompts.TwitterStanceKemlmFewShot | stance_detection/prompts.py:263-294 | the plain twitter few-shot prompt is framed and has the numbered examples right before the tweet line, and names the target verbatim between double quotes |
| Prompts.TwitterStanceKemlmLlama2ZeroShot | stance_detection/prompts.py:299-317 | the Llama 2 twitter zero-shot prompt is framed by `[INST] <<SYS>>` ... `[/INST]` and contains the tweet line, and names the target verbatim between double quotes |
| Prompts.TwitterStanceKemlmLlama2FewShot | stance_detection/prompts.py:320-349 | the Llama 2 twitter few-shot prompt is framed and has the numbered examples right before the tweet line, and names the target verbatim between double quotes |
| Prompts.TwitterStanceKemlmMistralZeroShot | stance_detection/prompts.py:353-373 | the Mistral twitter zero-shot prompt opens with `[INST]`, ends with `### Answer:` and contains the tweet line, and names the target verbatim between double quotes |
| Prompts.TwitterStanceKemlmMistralFewShot | stance_detection/prompts.py:376-408 | the Mistral twitter few-shot prompt ends with `### Answer:` and has the numbered examples right before the tweet line, and names the target verbatim between double quotes |
| Prompts.TwitterStanceKemlmQwen2ZeroShot | stance_detection/prompts.py:412-432 | the Qwen 2 twitter zero-shot prompt is framed as a chat and contains the tweet line, and names the target verbatim between double quotes |
| Prompts.TwitterStanceKemlmQwen2FewShot | stance_detection/prompts.py:434-469 | the Qwen 2 twitter few-shot prompt is framed and has the chat-turn examples right before the tweet line, and names the target verbatim between double quotes |
| Prompts.PStanceZeroShot | stance_detection/prompts.py:473-487 | the plain P-Stance zero-shot prompt is framed and contains the tweet line, and names the target verbatim between double quotes |
| Prompts.PStanceFewShot | stance_detection/prompts.py:489-516 | the plain P-Stance few-shot prompt is framed and has the P-Stance example block right before the tweet line, and names the target verbatim between double quotes |
| Prompts.PStanceLlama2ZeroShot | stance_detection/prompts.py:520-536 | the Llama 2 P-Stance zero-shot prompt is framed and contains the tweet line, and names the target verbatim between double quotes |
| Prompts.PStanceLlama2FewShot | stance_detection/prompts.py:539-568 | the Llama 2 P-Stance few-shot prompt is framed and has the P-Stance example block right before the tweet line, and names the target verbatim between double quotes |
| Prompts.PStanceMistralZeroShot | stance_detection/prompts.py:573-587 | the Mistral P-Stance zero-shot prompt is framed and contains the tweet line, and names the target verbatim between double quotes |
| Prompts.PStanceMistralFewShot | stance_detection/prompts.py:590-616 | the Mistral P-Stance few-shot prompt is framed and has the P-Stance example block right before the tweet line, and names the target verbatim between double quotes |
| Prompts.PStanceQwen2ZeroShot | stance_detection/prompts.py:620-636 | the Qwen 2 P-Stance zero-shot prompt is framed as a chat and contains the tweet line, and names the target verbatim between double quotes |
| Prompts.PStanceQwen2FewShot | stance_detection/prompts.py:638-668 | the Qwen 2 P-Stance few-shot prompt is framed and has the chat-turn examples right before the tweet line, and names the target verbatim between double quotes |
| Prompts.Assemble | stance_detection/prompts.py:12-28 | a prompt starts with its opening followed by the instructions, ends with its closing, and contains the section text, the tweet line and the question in a row |
| Prompts.AroundTarget | stance_detection/prompts.py:60 | a template's question names the target verbatim between double quotes |
| Prompts.ZeroShotPrompt | stance_detection/prompts.py:8-28 | every zero-shot body is framed by its pair, starts with the opening and the instructions, contains the tweet line followed by the question, and names the target between double quotes |
| Prompts.FewShotPrompt | stance_detection/prompts.py:31-64 | every few-shot body is framed, starts with the opening and the instructions, has leader, block, trailer, tweet line and question in a row, and names the target between double quotes |
| Prompts.ZeroShotTemplate | stance_detection/prompts.py:8-636 | the zero-shot template of any pair is framed by that pair's opening and closing, embeds the tweet line and names the target between double quotes |
| Prompts.FewShotTemplate | stance_detection/prompts.py:31-668 | the few-shot template of any pair is framed, puts its example block between leader and trailer right before the tweet line, and names the target between double quotes |
| Prompts.ZeroShotFunctionIsTemplate | stance_detection/generate_zero_shot_prompts.py:29 | calling the function fetched by name for a pair is applying that pair's zero-shot template |
| Prompts.FewShotFunctionIsTemplate | stance_detection/generate_few_shot_prompts.py:27 | calling the function fetched by name for a pair is applying that pair's few-shot template |
| Prompts.ModelFraming | stance_detection/prompts.py:70-85 | Llama 2 prompts open with `[INST] <<SYS>>` and close with `[/INST]`; Qwen 2 prompts open a system turn and close with `<\|im_end\|>` and a newline |
| Prompts.FewShotWithoutExamples | stance_detection/prompts.py:55-58 | with no examples the leader runs straight into the trailer and the tweet line |
| Prompts.EmptyBlock | stance_detection/prompts.py:33-39 | the example block of an empty example list is empty, for every pair |
| Prompts.NumberedBlockAppend | stance_detection/prompts.py:33-39 | the numbered block of two non-empty example lists is the first block, a blank line, then the entries of the second list numbered on from one past the length of the first |
| Prompts.NumberedBlockSnoc | stance_detection/prompts.py:33-39 | adding one example to a non-empty list appends a blank line and then its entry, numbered one past the length of the list, with its tweet, target and stance |
| Prompts.PStanceBlockIsNumberedBlock | stance_detection/prompts.py:491-497 | the P-Stance example block is the numbered block plus one trailing newline, and empty when there are no examples |
| Prompts.ChatEntryShape | stance_detection/prompts.py:204-214 | each Qwen 2 example is a user turn asking about the tweet and target, followed by an assistant turn that answers with the stance |
| Prompts.ChatAskMentionsTarget | stance_detection/prompts.py:640-649 | the question of a chat example mentions its target: inside the question for P-Stance, on a `Target:` line for the other datasets |
| Prompts.ChatBlockAppend | stance_detection/prompts.py:204-214 | the chat block of two non-empty example lists is the first block, a blank line, then the second block |
| Prompts.JoinTerminated | stance_detection/prompts.py:491-497 | entries that each end in a newline, joined by a newline, equal the same entries joined by a blank line followed by one newline |
| Prompts.NumberedBlock | stance_detection/prompts.py:33-39 | the SemEval 2016 and twitter_stance_kemlm example block: one `Example n:` entry per example, numbered from 1, with its tweet and target quoted and its stance, joined by blank lines |
| Prompts.PStanceBlock | stance_detection/prompts.py:491-497 | the P-Stance example block: the same numbered entries, each ending in a newline, joined by newlines |
| Prompts.ChatBlock | stance_detection/prompts.py:204-214 | the Qwen 2 example block: a user turn with the tweet and target and an assistant turn with the stance per example, joined by blank lines |
| Strings.Decimal | stance_detection/prompts.py:34 | the example number is a nonempty run of decimal digits without a leading zero |
| Strings.DecimalRoundTrip | stance_detection/prompts.py:34 | reading the printed example number back gives the number |
| Strings.Join | stance_detection/prompts.py:33 | `sep.join(parts)`: the parts in order with the separator between each two |
| Strings.Lower | stance_detection/generate_few_shot_prompts.py:62 | `str.lower` on ASCII letters; the result has the length of the input |
| Registry.Find | stance_detection/generate_few_shot_prompts.py:26-29 | a found template has the looked-up name; when none is found, no template has that name |
| Registry.Lookup | stance_detection/generate_few_shot_prompts.py:26-29 | `globals()[name]` over the 24 templates: the template with that name, or none |
| Registry.Resolve | stance_detection/generate_few_shot_prompts.py:23-29 | composes `<dataset>_<model>_<shot>_template` and looks it up; no template by that name is the unknown-template error carrying the name |
| Registry.AllTemplatesComplete | stance_detection/prompts.py:8-668 | every (dataset, model, shot) template is among the module's definitions |
| Registry.DefinedNameInjective | stance_detection/prompts.py:8-668 | no two templates share a function name |
| Registry.LookupSpec | stance_detection/generate_few_shot_prompts.py:27 | looking up a name finds exactly the template with that name |
| Registry.ResolveSpec | stance_detection/generate_few_shot_prompts.py:23-29 | resolution fails with the constructed name exactly when no template has that name; on success the shot matches and the name is the constructed one |
| Registry.ResolveByName | stance_detection/generate_zero_shot_prompts.py:25-31 | arguments whose joined key is a template's pair name resolve to that template |
| Registry.ResolveModelTemplate | stance_detection/generate_zero_shot_prompts.py:25-31 | every Llama 2, Mistral and Qwen 2 template is reached by its dataset name and lower-case model name |
| Registry.PlainTemplateUnreachable | stance_detection/generate_few_shot_prompts.py:23 | no arguments reach the plain SemEval 2016 or P-Stance template |
| Registry.TwitterPlainReachable | stance_detection/generate_few_shot_prompts.py:23 | any dataset and model whose `_`-joined key is `twitter_stance_kemlm` (`("twitter_stance", "kemlm")` or `("twitter", "stance_kemlm")`) reach the plain twitter_stance_kemlm template |
| Registry.KeyNotInjective | stance_detection/generate_few_shot_prompts.py:23 | two different (dataset, model) arguments reach the same Llama 2 twitter template |
| Registry.FewShotNameHasNoZ | stance_detection/generate_few_shot_prompts.py:138 | no few-shot template name contains the letter `z`, so none contains `zero_shot` |
| Registry.FewShotPromptType | stance_detection/generate_few_shot_prompts.py:138 | a resolved few-shot name always gives the prompt type `few_shot` |
| RowReader.PathJoin | stance_detection/generate_few_shot_prompts.py:37 | the joined path ends with the file name |
| RowReader.PathJoinSpec | stance_detection/generate_few_shot_prompts.py:37 | an absolute name is the whole joined path; otherwise the path is the directory, then a `/` exactly when the directory is non-empty and does not already end in `/`, then the name (its length and the character before the name pin it) |
| RowReader.Extension | stance_detection/generate_few_shot_prompts.py:62 | the extension is a suffix of the path; when not empty it is a dot followed by no dot or slash |
| RowReader.ExtensionIsSuffix | stance_detection/generate_few_shot_prompts.py:62 | a four-character extension is the last four characters, after a stem with a character other than a dot |
| RowReader.SuffixIsExtension | stance_detection/generate_few_shot_prompts.py:62 | a dot plus three characters without dot or slash after such a stem is the extension |
| RowReader.DelimiterOfExtension | stance_detection/generate_few_shot_prompts.py:62-68 | the delimiter is tab exactly for `.tsv` and comma exactly for `.csv`, in any case |
| RowReader.DelimiterSound | stance_detection/generate_few_shot_prompts.py:62-68 | a recognised extension means the lower-cased path ends in it and the stem has a character other than a dot |
| RowReader.DelimiterComplete | stance_detection/generate_few_shot_prompts.py:62-68 | a path that ends in `.tsv` or `.csv` in any case, after such a stem, has that extension |
| RowReader.DelimiterSpec | stance_detection/generate_zero_shot_prompts.py:34-40 | the delimiter is found exactly when the path ends in `.tsv` or `.csv` in any case, after a stem with a character other than a dot |
| RowReader.Delimiter | stance_detection/generate_few_shot_prompts.py:62-68 | tab for a `.tsv` extension and comma for `.csv`, in any case; any other extension is the unsupported-format error |
| RowReader.HeaderMapSpec | stance_detection/generate_zero_shot_prompts.py:48-50 | every lower-cased header is a key, and each key maps to the last header that lower-cases to it |
| RowReader.HeaderMap | stance_detection/generate_zero_shot_prompts.py:48-50 | the map from each lower-cased header to the header, a later header winning over an earlier one |
| RowReader.Column | stance_detection/generate_zero_shot_prompts.py:51-52 | `field_mapping.get(name)`: the header stored under the name, or none |
| RowReader.ColumnSpec | stance_detection/generate_zero_shot_prompts.py:48-54 | a column is found exactly when some header lower-cases to its name; the found header is the last such one; a found column is truthy |
| RowReader.RowRecords | stance_detection/generate_zero_shot_prompts.py:57-62 | the row loop can only fail with the invalid-row error |
| RowReader.RowRecordsSpec | stance_detection/generate_zero_shot_prompts.py:57-75 | the row loop succeeds exactly when every row has a truthy tweet and target, and then gives one record per row, in order |
| RowReader.ReadRecords | stance_detection/generate_zero_shot_prompts.py:57-75 | the loop returns exactly the records or error of the row specification |
| RowReader.RowRecordsAbort | stance_detection/generate_zero_shot_prompts.py:61-62 | one row with an empty or missing tweet or target makes the whole file fail |
| RowReader.RowRecordsMetaIndependent | stance_detection/generate_zero_shot_prompts.py:68-75 | the metadata passed in does not change whether the loop succeeds, nor the tweets, targets and prompts |
| RowReader.Texts | stance_detection/generate_zero_shot_prompts.py:72-74 | one text triple per record |
| RowReader.TextsAppend | stance_detection/generate_zero_shot_prompts.py:68 | appending records appends their text triples |
| RowReader.FileRecordsErrors | stance_detection/generate_zero_shot_prompts.py:34-62 | reading a file fails with an unsupported format exactly when the delimiter is unknown, with missing columns exactly when tweet or target has no header, and with an invalid row exactly when a row lacks a value; there are no other errors |
| RowReader.FileRecords | stance_detection/generate_zero_shot_prompts.py:33-75 | the delimiter, then the tweet and target columns (the missing-columns error when either is falsy), then the row loop |
| RowReader.FileRecordsSpec | stance_detection/generate_zero_shot_prompts.py:44-75 | a file read successfully gives one record per row, each holding that row's tweet and target cells, the given metadata and the rendered prompt |
| RowReader.FileRecordsRendered | stance_detection/generate_few_shot_prompts.py:117-135 | every record read from a file carries the metadata and the prompt rendered from its own tweet and target |
| RowReader.FileRecordsReadsOnly | stance_detection/generate_few_shot_prompts.py:108 | the outcome depends only on the contents of the file at that path |
| RowReader.FileRecordsMetaIndependent | stance_detection/generate_zero_shot_prompts.py:68-75 | the metadata affects neither the errors nor the texts of the records |
| RowReader.ReadFile | stance_detection/generate_few_shot_prompts.py:100-135 | reading a file with the loop gives exactly the file specification |
| ZeroShotDriver.GenerateZeroShotPrompts | stance_detection/generate_zero_shot_prompts.py:8-88 | the generator returns exactly what the zero-shot specification gives: lookup, then the file, then the output path |
| ZeroShotDriver.ZeroShotRun | stance_detection/generate_zero_shot_prompts.py:24-84 | the lookup, then the file's records, then the output path, stopping at the first error |
| ZeroShotDriver.ZeroShotPath | stance_detection/generate_zero_shot_prompts.py:80-84 | `<dir>/<dataset>_<model>_<candidate>_prompts.json` with a truthy candidate, `<dir>/<dataset>_<model>_prompts.json` otherwise |
| ZeroShotDriver.ZeroShotUnknownTemplate | stance_detection/generate_zero_shot_prompts.py:25-31 | the unknown-template error, with the constructed name, happens exactly when no template has that name |
| ZeroShotDriver.ZeroShotFileErrors | stance_detection/generate_zero_shot_prompts.py:33-62 | once the template is found, each file error happens exactly under its condition |
| ZeroShotDriver.ZeroShotRecords | stance_detection/generate_zero_shot_prompts.py:57-84 | a successful run writes to the zero-shot path one record per row, with the row's tweet and target, the run's dataset, model and candidate, and the pair's zero-shot template applied to them |
| ZeroShotDriver.ZeroShotCandidateMetadataOnly | stance_detection/generate_zero_shot_prompts.py:71 | the candidate changes neither whether a run fails, nor its error, nor any tweet, target or prompt |
| ZeroShotDriver.ZeroShotPathSpec | stance_detection/generate_zero_shot_prompts.py:81-84 | the output path starts with the directory, dataset and model and ends in `_prompts.json`, with nothing in between when there is no candidate; a truthy candidate is inserted with one `_` before that suffix, and a falsy one is left out |
| FewShotDriver.SelectFiles | stance_detection/generate_few_shot_prompts.py:36-46 | the selection has no more files than the listing |
| FewShotDriver.SelectFilesAppend | stance_detection/generate_few_shot_prompts.py:36-46 | selection keeps the listing's order: selecting from two listings is selecting from each in turn |
| FewShotDriver.SelectFilesMembership | stance_detection/generate_few_shot_prompts.py:52-53 | a path is selected exactly when it is the directory joined with a listed name the filter keeps |
| FewShotDriver.SelectInputs | stance_detection/generate_few_shot_prompts.py:48-56 | a successful selection has at least one example file and one test file |
| FewShotDriver.SelectInputsSpec | stance_detection/generate_few_shot_prompts.py:32-56 | P-Stance and twitter_stance_kemlm without a truthy candidate fail with the missing-candidate error; selection succeeds exactly when both filters keep some name; the files are exactly the listed names that contain `val`/`train` or `test` and, for the candidate-scoped datasets, the candidate, case-insensitively |
| FewShotDriver.Pick | stance_detection/generate_few_shot_prompts.py:85-93 | one exemplar per sampled row |
| FewShotDriver.ExampleSet | stance_detection/generate_few_shot_prompts.py:59-94 | one pass of the example loop on the first example file: delimiter, the three columns, the row-count check, then `random.sample` of `count` rows |
| FewShotDriver.ExampleSetSpec | stance_detection/generate_few_shot_prompts.py:59-94 | the example file gives exemplars exactly when it has a known delimiter, tweet, target and stance columns and at least `count` rows, with `count` not negative; then it gives exactly `count` exemplars taken from distinct rows; otherwise the error is the unsupported format exactly when the extension is refused, missing columns exactly when a column is missing, too few rows exactly when the columns are there and the file has fewer than `count` rows, and the negative-count error exactly when the columns are there and `count` is negative |
| FewShotDriver.ReadExemplars | stance_detection/generate_few_shot_prompts.py:59-94 | the example loop returns exactly the exemplar specification |
| FewShotDriver.TestRecordsAppend | stance_detection/generate_few_shot_prompts.py:98-135 | the records of two lists of test files are the records of the first list followed by those of the second, and the first error stops everything |
| FewShotDriver.TestRecordsSpec | stance_detection/generate_few_shot_prompts.py:98-135 | the test files give records exactly when every file does; the error is that of the first failing file; every record comes from one of the files |
| FewShotDriver.TestRecordsAbort | stance_detection/generate_few_shot_prompts.py:98-122 | when the files before a failing one succeed, the run fails with that file's error |
| FewShotDriver.TestRecords | stance_detection/generate_few_shot_prompts.py:97-135 | the records of every test file in list order, or the error of the first file that fails |
| FewShotDriver.TestRecordsLayout | stance_detection/generate_few_shot_prompts.py:97-135 | when every test file gives records, the run lists them file after file: their number is the files' records added up, and record `j` of file `i` sits right after the records of the files before it |
| FewShotDriver.RecordTotalIsRowTotal | stance_detection/generate_few_shot_prompts.py:117-135 | when every test file is read, the records counted are the rows counted |
| FewShotDriver.TestRowRecords | stance_detection/generate_few_shot_prompts.py:97-135 | reading the test files gives one record per row, file after file and row after row, each holding its row's tweet and target cells, the metadata and the rendered prompt |
| FewShotDriver.ReadTestFiles | stance_detection/generate_few_shot_prompts.py:98-135 | the test-file loop returns exactly the test-file specification |
| FewShotDriver.TestRecordsCongruent | stance_detection/generate_few_shot_prompts.py:98-135 | the test records depend only on what reading each listed file gives |
| FewShotDriver.TestFilesReadOnly | stance_detection/generate_few_shot_prompts.py:108 | the test records depend only on the contents of the test files |
| FewShotDriver.GenerateFewShotPrompts | stance_detection/generate_few_shot_prompts.py:9-152 | the generator returns exactly what the few-shot specification gives: lookup, file selection, exemplars, test files, then the output path |
| FewShotDriver.FewShotRun | stance_detection/generate_few_shot_prompts.py:9-148 | the lookup, then selection, exemplars, test records and the output path, stopping at the first error |
| FewShotDriver.StageErrors | stance_detection/generate_few_shot_prompts.py:32-122 | no stage after the lookup reports an unknown template |
| FewShotDriver.FewShotUnknownTemplate | stance_detection/generate_few_shot_prompts.py:23-29 | the unknown-template error, with the constructed name, happens exactly when no template has that name |
| FewShotDriver.FewShotMissingCandidate | stance_detection/generate_few_shot_prompts.py:32-34 | with a found template, a candidate-scoped dataset without a truthy candidate fails with the missing-candidate error, whatever the files |
| FewShotDriver.FewShotRecords | stance_detection/generate_few_shot_prompts.py:80-135 | a successful run drew exactly `count` exemplars from the first example file, and every record carries the run's metadata, a nonempty tweet and target, and the pair's few-shot template applied to them and to those same exemplars |
| FewShotDriver.StagesRowRecords | stance_detection/generate_few_shot_prompts.py:96-135 | whatever the template, the stages after the lookup write one record per test row, in file and row order, each copied from its row and rendered with the sampled exemplars |
| FewShotDriver.FewShotRecordOfRow | stance_detection/generate_few_shot_prompts.py:96-135 | a successful run writes as many records as the test files have rows; the record after the rows of the files before file `i`, plus `j`, holds row `j` of file `i`: its tweet and target cells, the run's dataset, model and candidate, and the few-shot template applied to them and the sampled exemplars |
| FewShotDriver.FewShotReadsFirstExampleFile | stance_detection/generate_few_shot_prompts.py:59-94 | the run depends only on the first example file and the test files; other example files are never read |
| FewShotDriver.StagesReadFirstExampleFile | stance_detection/generate_few_shot_prompts.py:94 | the stages after the lookup read only the first example file and the test files, whatever the template |
| FewShotDriver.FewShotFileNameSpec | stance_detection/generate_few_shot_prompts.py:145-148 | the file name starts with the dataset and model and ends in `_few_shot_prompts.json`; for semeval2016 it ignores the candidate and has nothing in between; otherwise exactly `_` and the printed candidate, `None` when there is none, come in between |
| FewShotDriver.FewShotFileName | stance_detection/generate_few_shot_prompts.py:144-148 | `<dataset>_<model>_few_shot_prompts.json` for semeval2016, `<dataset>_<model>_<candidate>_few_shot_prompts.json` otherwise |
| FewShotDriver.FewShotPath | stance_detection/generate_few_shot_prompts.py:137-148 | the output directory joined with the prompt type, then `/` and the file name |
| FewShotDriver.FewShotPathSpec | stance_detection/generate_few_shot_prompts.py:138-148 | a resolved few-shot template writes into the `few_shot` subdirectory of the output directory |

## Left out

- File contents and directory listings are parameters. The model leaves out
  the I/O itself: `os.listdir`, `open`, `os.makedirs`, `json.dump` and the
  final `print`.
- The few-shot generator calls `os.listdir` twice. The model assumes both
  calls return the same list.
- `csv.DictReader` parsing is left out. A file is read as a header plus a
  list of rows, each a map from header to cell. A missing cell reads as
  `None`.
- A file with no header row makes `reader.fieldnames` `None`, and
  building the header map then raises a `TypeError`. The model reads such a
  file as an empty header, which reports missing columns instead.
- The two generators open files in different text encodings. Zero-shot
  uses `utf-8` and few-shot uses `unicode_escape`. The model works on
  already-decoded strings, so decoding failures are not modelled.
- `Strings.Lower` lower-cases ASCII letters only. Python's `str.lower` also
  folds non-ASCII letters. Extension, header and file-name matching are
  therefore modelled for ASCII text.
- `random.sample`'s uniform distribution is not modelled. The sampler is a
  parameter, and the model states only that it gives `k` distinct indices
  of rows.
- FewShotDriver.ReadExemplars models only the first pass of the example
  loop. The loop always ends with `break` after that pass, so later
  example files are never opened.
- `os.path.join` is modelled for POSIX paths and two arguments only
  (`RowReader.PathJoin`); Windows drive letters and separators are not.
- PathJoin: its own contract states only that the joined path ends with the
  name; the separator and when it is added are stated by
  `RowReader.PathJoinSpec`, kept apart so that the many proofs that unfold
  paths do not carry them.
- `globals()` is modelled as the 24 templates. Other module-level names
  never end in `_zero_shot_template` or `_few_shot_template`.
- The two `argparse` entry points are not modelled. The zero-shot one
  passes `input_csv=` to a function whose parameter is `input_file`, which
  raises a `TypeError` before any work is done.
- Console messages and the exception texts are not modelled. Errors are
  modelled by their kind and the values they name.
