# phi3 docuhelper: the experiment harness, modelled in Dafny

rwolfdev.phi3.docuhelper is an experiment harness. It asks a local Phi-3
model to write documentation for code snippets. Each snippet is run once
without and once with a programming-language hint, and every answer is
recorded. This project models the harness's orchestration core and the
prompt composer of its generator library.

- **Ledger writer** (`CsvLogger`, csv_logger.dfy). `results.csv` is a
  `;`-separated file with a five-column header. Fields are quoted in the
  manner of RFC 4180 section 2, rules 6 and 7, with two differences: the
  separator is `;`, and a value with a leading or trailing space is also
  quoted. The file is a `LedgerFile` object holding its records (one per
  `WriteLine`), or nothing while the file is absent. A quote-aware reader (`ReadField`,
  `ReadRecord`) is the partner against which escaping is proved to read
  back.
- **Discovery** (discovery.dfy). Covers the prompt catalogs of
  `LoadPromptFolder`, the scenario scan of `LoadScenarios` and
  `FilterScenariosByType`.
  - A directory is its listing: `None` when absent, else its entries in
    listing order.
  - A `Dictionary<string, string>` that is only added to is an ordered list
    of (name, body) pairs.
  - The scan of one folder is a fold (`Scan`) over its files. It is proved
    to take the type of the last marker, the trimmed last `.language` and
    the verbatim last `code_input.txt`.
- **Prompt composer** (generator.dfy).
  - `Phi3Environment` sends a prompt to an engine given as a function from
    prompt to completion. Its catch turns a failure into the exception's
    text.
  - `PromptTemplate` holds three nullable bodies and the language flag.
  - `Phi3DocuGenerator` holds the current template and composes the
    `<|system|>…<|end|><|user|>…<|end|><|assistant|>` chat prompt for
    function, class and project documentation.
- **Batch executor** (batch.dfy).
  - The files the harness writes are a `Workspace`: the ledger, the result
    files keyed by (directory, file name), and a ghost trace of every write
    in order. Both files are a function of the trace.
  - `ProcessScenarios` and the Function → Class → Project order of `Main`
    (`RunExperiment`) are proved to append exactly the effects and to submit
    exactly the prompts given by the specification functions
    `BatchEffects`, `BatchPrompts`, `ExperimentEffects` and
    `ExperimentPrompts`.
  - Lemmas about those functions state what a run produces:
    - four writes per non-empty pair, in the source's order;
    - result files holding the backend's answers;
    - counts;
    - rows grouped by type;
    - the final ledger.

Supporting modules: results.dfy (`Option`, `Result`, `Outcome`), strings.dfy
(`Trim` and ordinal case-insensitive equality on ASCII), and scenarios.dfy
(`ScenarioType`, `Scenario`).

## Model

| member | source | states |
|---|---|---|
| Strings.Trim | src/rwolfdev.phi3.docuhelper.console/Program.cs:317 | the result is a middle slice of the input; everything cut off on either side is white space, and the result neither starts nor ends with white space |
| CsvLogger.Escape | src/rwolfdev.phi3.docuhelper.console/Program.cs:80-95 | null gives ""; a value is returned unchanged exactly when it has no `;`, `"`, CR or LF and no leading or trailing space; otherwise the result is enclosed in quotes |
| CsvLogger.HasSpecialAt | src/rwolfdev.phi3.docuhelper.console/Program.cs:87 | the recursive scan for special characters holds exactly when some character of the value is `;`, `"`, CR or LF |
| CsvLogger.NeedsQuotingMeans | src/rwolfdev.phi3.docuhelper.console/Program.cs:87 | a value needs quoting exactly when some character is `;`, `"`, CR or LF, or its first or last character is a space |
| CsvLogger.DoubleQuotesCounts | src/rwolfdev.phi3.docuhelper.console/Program.cs:93 | the replacement has twice as many quotes as the value and the same number of every other character |
| CsvLogger.ReadBareUnquoted | src/rwolfdev.phi3.docuhelper.console/Program.cs:87-91 | a value without special characters reads back as an unquoted field up to the next separator |
| CsvLogger.ReadQuotedDoubled | src/rwolfdev.phi3.docuhelper.console/Program.cs:93-94 | a value with every quote doubled, followed by a closing quote, reads back as the original value, leaving the rest of the line |
| CsvLogger.QuotedReadsBack | src/rwolfdev.phi3.docuhelper.console/Program.cs:93-94 | a quoted field (opening quote, doubled body, closing quote) reads back as the original value |
| CsvLogger.BareReadsBack | src/rwolfdev.phi3.docuhelper.console/Program.cs:87-91 | a value that needs no quoting reads back as itself |
| CsvLogger.EscapeReadsBack | src/rwolfdev.phi3.docuhelper.console/Program.cs:80-95 | for every string, reading the escaped field back gives the original value and the rest of the line |
| CsvLogger.RecordRoundTrip | src/rwolfdev.phi3.docuhelper.console/Program.cs:68-75 | Join of the escaped fields, read back, gives exactly the original fields |
| CsvLogger.FlagNeedsNoQuoting | src/rwolfdev.phi3.docuhelper.console/Program.cs:73 | the unescaped flag text "true"/"false" is what Escape would have written anyway |
| CsvLogger.RowLine | src/rwolfdev.phi3.docuhelper.console/Program.cs:68-75 | the record AppendRow writes is the row's five fields (names, language, flag text, type name) each escaped and joined, although the flag is written without Escape |
| CsvLogger.RowLineReadsBack | src/rwolfdev.phi3.docuhelper.console/Program.cs:64-77 | every ledger record reads back as exactly five fields: scenario name, prompt name, language, "true" or "false", and the type's name |
| CsvLogger.WithHeader | src/rwolfdev.phi3.docuhelper.console/Program.cs:47-61 | an absent file becomes a file holding only the header record; an existing file is left as it is |
| CsvLogger.WithHeaderIdempotent | src/rwolfdev.phi3.docuhelper.console/Program.cs:47-61 | ensuring the header twice is the same as ensuring it once |
| CsvLogger.LedgerFile.EnsureWithHeader | src/rwolfdev.phi3.docuhelper.console/Program.cs:39-62 | the new content is WithHeader of the old content |
| CsvLogger.LedgerFile.AppendRow | src/rwolfdev.phi3.docuhelper.console/Program.cs:64-78 | exactly one record, the row's five-field record, is added after the existing records; an absent file is created without a header |
| Discovery.Lookup | src/rwolfdev.phi3.docuhelper.console/Program.cs:273 | a catalog has no value for a name exactly when no entry carries that name |
| Discovery.Put | src/rwolfdev.phi3.docuhelper.console/Program.cs:273 | after `result[name] = body` the name maps to body and every other name keeps its value; a new key is appended at the end, and an existing key keeps its place |
| Discovery.PutKeepsDistinct | src/rwolfdev.phi3.docuhelper.console/Program.cs:273 | assigning through the indexer never makes a key appear twice |
| Discovery.LastContent | src/rwolfdev.phi3.docuhelper.console/Program.cs:270-275 | there is no content for a name exactly when no file in the listing has that name |
| Discovery.IndexFiles | src/rwolfdev.phi3.docuhelper.console/Program.cs:268-275 | the catalog built from a listing has no duplicate keys |
| Discovery.IndexFilesLookup | src/rwolfdev.phi3.docuhelper.console/Program.cs:268-275 | every file name maps to the content of the last file of that name, and no other name has a value |
| Discovery.IndexDistinctListing | src/rwolfdev.phi3.docuhelper.console/Program.cs:268-275 | when the file names are distinct, as in one directory, the catalog is the listing's (name, content) pairs in listing order |
| Discovery.LoadPromptFolder | src/rwolfdev.phi3.docuhelper.console/Program.cs:258-278 | a missing folder gives an empty catalog; otherwise every name looks up the content of the last file of that name; the result is PromptsIn(folder) |
| Discovery.ScanKind | src/rwolfdev.phi3.docuhelper.console/Program.cs:296-323 | a folder's type is that of its last marker file, compared ignoring case; it is Unknown when there is no marker |
| Discovery.ScanLanguage | src/rwolfdev.phi3.docuhelper.console/Program.cs:315-318 | the language is the trimmed content of the last `.language` file, or "" when there is none |
| Discovery.ScanInput | src/rwolfdev.phi3.docuhelper.console/Program.cs:319-322 | the input is the verbatim content of the last `code_input.txt`, or "" when there is none |
| Discovery.MarkersAreDistinct | src/rwolfdev.phi3.docuhelper.console/Program.cs:303-322 | no file name matches two branches of the else-if chain, so the order of the branches does not matter |
| Discovery.MarkerType | src/rwolfdev.phi3.docuhelper.console/Program.cs:303-314 | a name stands for Class, Function or Project exactly when it equals that marker ignoring case |
| Discovery.ScanFile | src/rwolfdev.phi3.docuhelper.console/Program.cs:300-322 | one file changes at most one finding: the type only to its marker's type, the language only for a `.language` file and to its trimmed content, the input only for `code_input.txt` and to its content |
| Discovery.ScenarioOf | src/rwolfdev.phi3.docuhelper.console/Program.cs:325-331 | a folder yields a scenario only when typed, never Unknown, and the scenario carries the folder's path |
| Discovery.Discovered | src/rwolfdev.phi3.docuhelper.console/Program.cs:290-333 | at most one scenario per folder, and none is Unknown |
| Discovery.DiscoveredAppend | src/rwolfdev.phi3.docuhelper.console/Program.cs:290-333 | discovery runs folder by folder: the scenarios of a listing are those of its parts, in listing order |
| Discovery.DiscoveredSingle | src/rwolfdev.phi3.docuhelper.console/Program.cs:325-331 | a folder is dropped exactly when none of its files is a type marker |
| Discovery.LoadScenarios | src/rwolfdev.phi3.docuhelper.console/Program.cs:280-336 | the loops compute ScenariosIn(root): nothing for a missing root, else the typed folders in listing order |
| Discovery.OfType | src/rwolfdev.phi3.docuhelper.console/Program.cs:338-349 | the filtered list is no longer than the input and holds only scenarios of the requested type |
| Discovery.OfTypeAppend | src/rwolfdev.phi3.docuhelper.console/Program.cs:338-349 | filtering keeps order: the filtered list of a concatenation is the concatenation of the filtered lists |
| Discovery.OfTypeCount | src/rwolfdev.phi3.docuhelper.console/Program.cs:338-349 | filtering keeps every copy of every scenario of the requested type and drops all others |
| Discovery.OfTypePartition | src/rwolfdev.phi3.docuhelper.console/Program.cs:338-349 | when no scenario is Unknown, the Function, Class and Project filters together hold every scenario exactly once |
| Discovery.FilterScenariosByType | src/rwolfdev.phi3.docuhelper.console/Program.cs:338-349 | the loop computes OfType |
| Generator.Phi3Environment.SubmitPrompt | src/rwolfdev.phi3.docuhelper.generator/Phi3Environment.cs:35-63 | exactly one prompt is submitted; the result is the engine's text, or the exception's text when the engine raises |
| Generator.PromptTemplate.constructor | src/rwolfdev.phi3.docuhelper.generator/PromptTemplate.cs:7-13 | a new template has three null bodies and the language flag false |
| Generator.RequestShape | src/rwolfdev.phi3.docuhelper.generator/Phi3DocuGenerator.cs:26-50 | every user text is a head followed by the code, with nothing after the code |
| Generator.RequestWithoutLanguage | src/rwolfdev.phi3.docuhelper.generator/Phi3DocuGenerator.cs:26-50 | without the flag the language is ignored: class and project text equal the flagged text with an empty language (two spaces before "code"), and function text has no slot at all (one character shorter) |
| Generator.PromptAroundCode | src/rwolfdev.phi3.docuhelper.generator/Phi3DocuGenerator.cs:30-50 | a composed prompt is the system tag, body, end and user tags, the request head, then the code, then the closing tags |
| Generator.PromptLayout | src/rwolfdev.phi3.docuhelper.generator/Phi3DocuGenerator.cs:30-50 | every prompt starts with the system tag and the template body and ends with the code, the end tag and the assistant tag: the assistant segment is empty |
| Generator.LanguageDeterminesPrompt | src/rwolfdev.phi3.docuhelper.generator/Phi3DocuGenerator.cs:26-50 | with the flag on, different language hints give different prompts |
| Generator.CodeDeterminesPrompt | src/rwolfdev.phi3.docuhelper.generator/Phi3DocuGenerator.cs:30-50 | different inputs always give different prompts |
| Generator.Phi3DocuGenerator.constructor | src/rwolfdev.phi3.docuhelper.generator/Phi3DocuGenerator.cs:12-15 | the generator uses the given environment and has no template yet |
| Generator.Phi3DocuGenerator.UseTemplate | src/rwolfdev.phi3.docuhelper.generator/Phi3DocuGenerator.cs:17-20 | null is refused with ArgumentNull and changes nothing; otherwise the template becomes the current one |
| Generator.Phi3DocuGenerator.Generate | src/rwolfdev.phi3.docuhelper.generator/Phi3DocuGenerator.cs:22-52 | without a template: InvalidOperation, and nothing is submitted; with one: exactly one prompt, composed from the current template, is submitted and the backend's answer is returned unchanged |
| Generator.Phi3DocuGenerator.GenerateFunctionDocumentation | src/rwolfdev.phi3.docuhelper.generator/Phi3DocuGenerator.cs:22-32 | as Generate, with the function body and function wording; an omitted language is "C#" |
| Generator.Phi3DocuGenerator.GenerateClassDocumentation | src/rwolfdev.phi3.docuhelper.generator/Phi3DocuGenerator.cs:34-42 | as Generate, with the class body and class wording; an omitted language is "C#" |
| Generator.Phi3DocuGenerator.GenerateProjectDocumentation | src/rwolfdev.phi3.docuhelper.generator/Phi3DocuGenerator.cs:44-52 | as Generate, with the project body and project wording; an omitted language is "C#" |
| Batch.ScenarioNameIsLastSegment | src/rwolfdev.phi3.docuhelper.console/Program.cs:351-354 | the scenario name is a separator-free suffix of the path, and it is either the whole path or preceded by a separator |
| Batch.ScenarioNameOfChild | src/rwolfdev.phi3.docuhelper.console/Program.cs:351-354 | a folder created as `directory/name` is named `name` |
| Batch.ScenarioName | src/rwolfdev.phi3.docuhelper.console/Program.cs:351-354 | the name is no longer than the path and holds no separator |
| Batch.ResultFileName | src/rwolfdev.phi3.docuhelper.console/Program.cs:206 | a result file name starts with the prompt name and is longer than it |
| Batch.ResultFilesDiffer | src/rwolfdev.phi3.docuhelper.console/Program.cs:206-222 | the file without the language and the file with it are never the same file, so the second run never overwrites the first |
| Batch.PairEffects | src/rwolfdev.phi3.docuhelper.console/Program.cs:198-229 | a pair writes nothing for an Unknown type or an empty input, and four things otherwise |
| Batch.Workspace.EnsureLedgerHeader | src/rwolfdev.phi3.docuhelper.console/Program.cs:133 | records the header effect; the ledger becomes WithHeader of the old ledger; result files are unchanged |
| Batch.Workspace.WriteResultFile | src/rwolfdev.phi3.docuhelper.console/Program.cs:252-256 | the file (directory, name) holds the content afterwards, or "" for null; no other file and not the ledger changes |
| Batch.Workspace.AppendRow | src/rwolfdev.phi3.docuhelper.console/Program.cs:207-213 | records the row effect, keeping the ledger equal to the trace's ledger; result files are unchanged |
| Batch.GenerateByType | src/rwolfdev.phi3.docuhelper.console/Program.cs:237-250 | Unknown gives "" without calling the backend; otherwise the matching Generate* is called, with its error and success cases |
| Batch.NewTemplate | src/rwolfdev.phi3.docuhelper.console/Program.cs:180-194 | a fresh template carrying the body in the field of the scenario's type, the other two bodies null, and the flag off |
| Batch.ProcessPair | src/rwolfdev.phi3.docuhelper.console/Program.cs:173-233 | appends PairEffects and submits PairPrompts; a fresh template is set even for an empty input; afterwards it holds the body in its type's field, the other bodies null, and its flag is on exactly when the input was non-empty |
| Batch.RunBoth | src/rwolfdev.phi3.docuhelper.console/Program.cs:205-229 | the run without the language, then with it; the template's flag ends up set |
| Batch.RunOnce | src/rwolfdev.phi3.docuhelper.console/Program.cs:205-213 | one backend call, then its result file, then its ledger row |
| Batch.ProcessScenario | src/rwolfdev.phi3.docuhelper.console/Program.cs:169-234 | one scenario against every prompt in catalog order: appends ScenarioEffects and submits ScenarioPrompts |
| Batch.ProcessScenarios | src/rwolfdev.phi3.docuhelper.console/Program.cs:163-235 | appends exactly BatchEffects to the trace and submits exactly BatchPrompts, keeping the files consistent with the trace |
| Batch.RunExperiment | src/rwolfdev.phi3.docuhelper.console/Program.cs:113-161 | loads the catalogs and scenarios, then appends the header followed by the Function, Class and Project batches (ExperimentEffects), and submits ExperimentPrompts |
| Batch.LedgerAfterExisting | src/rwolfdev.phi3.docuhelper.console/Program.cs:64-78 | on an existing ledger, a run's effects add exactly one record per row, in order; headers and result files add nothing |
| Batch.PairEffectsBlock | src/rwolfdev.phi3.docuhelper.console/Program.cs:198-229 | a pair writes nothing exactly when its input is empty; otherwise one block of four: `_result.txt`, row flagged false, `_result_language.txt`, row flagged true, all in the scenario's folder, both rows with its name, prompt, language and type |
| Batch.ScenarioEffectsBlocks | src/rwolfdev.phi3.docuhelper.console/Program.cs:173-233 | a scenario's writes are a sequence of whole pair blocks |
| Batch.BatchEffectsBlocks | src/rwolfdev.phi3.docuhelper.console/Program.cs:169-234 | a batch's writes are a sequence of whole pair blocks |
| Batch.PairAnswers | src/rwolfdev.phi3.docuhelper.console/Program.cs:205-222 | a pair's two result files hold the backend's answers to its two prompts, in the order asked |
| Batch.ScenarioAnswers | src/rwolfdev.phi3.docuhelper.console/Program.cs:173-233 | a scenario's result files hold the answers to its prompts, in order |
| Batch.BatchAnswers | src/rwolfdev.phi3.docuhelper.console/Program.cs:163-235 | the contents written by a batch are exactly the backend's answers to the prompts it submitted, in order |
| Batch.ScenarioSize | src/rwolfdev.phi3.docuhelper.console/Program.cs:173-233 | a scenario makes 4 writes and 2 backend calls per prompt, and none when its input is empty |
| Batch.BatchSize | src/rwolfdev.phi3.docuhelper.console/Program.cs:163-235 | a batch makes 4 writes and 2 backend calls per prompt for each scenario with a non-empty input |
| Batch.PairRowsOfType | src/rwolfdev.phi3.docuhelper.console/Program.cs:207-228 | every row of a pair carries the batch's type |
| Batch.ScenarioRowsOfType | src/rwolfdev.phi3.docuhelper.console/Program.cs:173-233 | every row of a scenario carries the batch's type |
| Batch.BatchRowsOfType | src/rwolfdev.phi3.docuhelper.console/Program.cs:163-235 | every ledger row of a batch carries the batch's type |
| Batch.ExperimentRowsGrouped | src/rwolfdev.phi3.docuhelper.console/Program.cs:138-157 | a run's rows are grouped: all Function rows, then all Class rows, then all Project rows, and none is Unknown |
| Batch.HeaderThenRows | src/rwolfdev.phi3.docuhelper.console/Program.cs:133-157 | a run that starts by ensuring the header leaves the header-ensured file followed by its row records |
| Batch.ExperimentLedger | src/rwolfdev.phi3.docuhelper.console/Program.cs:133-157 | after a whole run the ledger is the old file (or the header alone, when it was absent) followed by one record per row of the run, in order |

## Left out

- Console output, `PrintApplicationInfo`, constructing the environment from `Phi3ModelPath`, and `Dispose`: these produce no data the harness keeps.
- The folder constants (`./prompts/.class/`, `./prompts/.function/`, `./prompts/.project/`, `./szenarios`): `RunExperiment` takes the listings of those folders as parameters instead.
- The inference engine inside `Phi3Environment.SubmitPrompt` (ONNX model, tokenizer, decode loop) is a foreign library. It is a parameter: a function from prompt to generated text or raised exception. Only the catch that returns the exception's text is kept.
- rwolfdev.ProjectSource2TxtInput, a separate console utility, is not part of this model. The `IPhi3DocuGenerator` interface holds only declarations.
- Real file-system behaviour is not modelled: the UTF-8 byte-order mark, the `results` directory creation at lines 41-45, `Path.Combine` (a result file is a (directory, file name) pair), and exceptions when reading or writing files.
- The ledger is a sequence of records, one per `WriteLine`, not of text lines: a quoted field may hold a line break. An existing file that does not end in a newline would have its last line joined to the first appended record; the model does not capture this.
- Directory listings are given sequences. `Directory.GetFiles` and `Directory.GetDirectories` order is taken as given.
- Discovery.LoadPromptFolder: the catalog's order is the order of first insertion. That is how `Dictionary<string, string>` enumerates when nothing is removed, but .NET does not document it.
- Strings.Trim: white space is the ASCII and Latin-1 subset of `char.IsWhiteSpace`, not all Unicode white space.
- CsvLogger.Escape: the leading and trailing space test looks at the first and last character (an ordinal comparison). .NET's `StartsWith(" ")` and `EndsWith(" ")` are culture-sensitive and skip ignorable code points, such as a soft hyphen before the space, so such values are quoted by the source but not by the model, and the reverse holds for a space followed by a combining mark.
- Strings.EqualsIgnoreCase: ordinal case folding on ASCII letters only; the marker names are ASCII.
- Batch.ScenarioName: separators are `/` and `\`. A path ending in a separator gives "", whereas `DirectoryInfo.Name` would skip the separator. Directory listings never produce such paths.
- Batch.ProcessScenarios: does not state which template the generator holds after the loop. Batch.ProcessPair states it for each pair.
- Batch.GenerateByType: its `InvalidOperation` case cannot occur inside the batch, because a template is always set first. `RunOnce` relies on that instead of handling the error.
- CsvLogger.HeaderLine: no read-back lemma for the header record. Its five names are joined without Escape and contain no special characters.
- Concurrency: the harness is sequential.
