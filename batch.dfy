/**
 * The batch executor of the console harness: ProcessScenarios, which runs
 * every scenario of one type against every prompt of that type, and the
 * experiment run of Main, which loads prompts and scenarios, ensures the
 * ledger header and processes Function, Class and Project scenarios in that
 * order.
 *
 * The file system is a Workspace: the ledger file and the result files,
 * with a ghost trace of every write in the order it happened. The state of
 * both is a function of the trace (Workspace.Valid), so what a run does is
 * stated once, as the sequence of effects it appends.
 */
module Batch {
  import opened Results
  import opened Scenarios
  import opened CsvLogger
  import opened Discovery
  import opened Generator

  // ---------------------------------------------------------------------
  // Scenario names

  predicate IsPathSeparator(c: char) {
    c == '/' || c == '\\'
  }

  /** GetScenarioName: the last segment of a directory path. */
  function ScenarioName(path: string): (r: string)
    ensures |r| <= |path|
    ensures forall i :: 0 <= i < |r| ==> !IsPathSeparator(r[i])
  {
    if path == [] || IsPathSeparator(path[|path| - 1]) then []
    else ScenarioName(path[..|path| - 1]) + [path[|path| - 1]]
  }

  /**
   * The scenario name is a suffix of the path that holds no separator and
   * is either the whole path or preceded by a separator.
   */
  lemma {:induction false} ScenarioNameIsLastSegment(path: string)
    ensures var r := ScenarioName(path);
      && |r| <= |path| && r == path[|path| - |r|..]
      && (forall i :: 0 <= i < |r| ==> !IsPathSeparator(r[i]))
      && (|r| < |path| ==> IsPathSeparator(path[|path| - |r| - 1]))
  {
    if path != [] && !IsPathSeparator(path[|path| - 1]) {
      var prefix := path[..|path| - 1];
      ScenarioNameIsLastSegment(prefix);
      var q := ScenarioName(prefix);
      assert ScenarioName(path) == q + [path[|path| - 1]];
      assert prefix[|prefix| - |q|..] + [path[|path| - 1]] == path[|path| - |q| - 1..];
      if |q| < |prefix| {
        assert path[|path| - |q| - 2] == prefix[|prefix| - |q| - 1];
      }
    }
  }

  /** The name of a folder inside a directory is the name it was given. */
  lemma ScenarioNameOfChild(directory: string, separator: char, name: string)
    requires IsPathSeparator(separator)
    requires forall i :: 0 <= i < |name| ==> !IsPathSeparator(name[i])
    ensures ScenarioName(directory + [separator] + name) == name
  {
    var path := directory + [separator] + name;
    ScenarioNameIsLastSegment(path);
    var r := ScenarioName(path);
    assert path[|path| - |name|..] == name;
    assert path[|path| - |name| - 1] == separator;
  }

  // ---------------------------------------------------------------------
  // Effects and the workspace

  const ResultSuffix := "_result.txt"
  const LanguageResultSuffix := "_result_language.txt"

  /** One write of the harness: the ledger header, a result file, or a ledger row. */
  datatype Effect =
    | HeaderEnsured
    | ResultWritten(directory: string, fileName: string, content: string)
    | RowAppended(row: LedgerRow)

  /** The result files after a sequence of effects: each write replaces the file's content. */
  function ArtifactsAfter(files: map<(string, string), string>, effects: seq<Effect>): map<(string, string), string> {
    if effects == [] then files
    else
      var before := ArtifactsAfter(files, effects[..|effects| - 1]);
      match effects[|effects| - 1]
      case ResultWritten(directory, fileName, content) => before[(directory, fileName) := content]
      case _ => before
  }

  /** The ledger file after a sequence of effects. */
  function LedgerAfter(ledger: Option<seq<string>>, effects: seq<Effect>): Option<seq<string>> {
    if effects == [] then ledger
    else
      var before := LedgerAfter(ledger, effects[..|effects| - 1]);
      match effects[|effects| - 1]
      case HeaderEnsured => WithHeader(before)
      case RowAppended(row) => Some(before.GetOr([]) + [RowLine(row)])
      case ResultWritten(_, _, _) => before
  }

  /** The files the harness writes: the ledger and the result files, keyed by (directory, file name). */
  class Workspace {
    const ledger: LedgerFile
    var artifacts: map<(string, string), string>
    ghost var trace: seq<Effect>
    ghost const initialArtifacts: map<(string, string), string>
    ghost const initialLedger: Option<seq<string>>

    ghost predicate Valid()
      reads this, ledger
    {
      && artifacts == ArtifactsAfter(initialArtifacts, trace)
      && ledger.content == LedgerAfter(initialLedger, trace)
    }

    constructor (ledger: LedgerFile, artifacts: map<(string, string), string>)
      ensures this.ledger == ledger && this.artifacts == artifacts && trace == []
      ensures Valid()
    {
      this.ledger := ledger;
      this.artifacts := artifacts;
      trace := [];
      initialArtifacts := artifacts;
      initialLedger := ledger.content;
    }

    /** CsvLogger.EnsureWithHeader on this workspace's ledger. */
    method EnsureLedgerHeader()
      requires Valid()
      modifies this, ledger
      ensures Valid()
      ensures trace == old(trace) + [HeaderEnsured]
      ensures ledger.content == WithHeader(old(ledger.content)) && artifacts == old(artifacts)
    {
      ledger.EnsureWithHeader();
      trace := trace + [HeaderEnsured];
      assert trace[..|trace| - 1] == old(trace);
    }

    /** WriteResultFile: the file holds the content afterwards, or "" for a null content. */
    method WriteResultFile(directory: string, fileName: string, content: Option<string>)
      requires Valid()
      modifies this
      ensures Valid()
      ensures trace == old(trace) + [ResultWritten(directory, fileName, content.GetOr(""))]
      ensures artifacts == old(artifacts)[(directory, fileName) := content.GetOr("")]
      ensures ledger.content == old(ledger.content)
    {
      artifacts := artifacts[(directory, fileName) := content.GetOr("")];
      trace := trace + [ResultWritten(directory, fileName, content.GetOr(""))];
      assert trace[..|trace| - 1] == old(trace);
    }

    /** CsvLogger.AppendRow on this workspace's ledger. */
    method AppendRow(scenarioName: string, promptName: string, language: string,
                     withLanguageInfo: bool, scenarioType: ScenarioType)
      requires Valid()
      modifies this, ledger
      ensures Valid()
      ensures trace == old(trace) + [RowAppended(LedgerRow(scenarioName, promptName, language, withLanguageInfo, scenarioType))]
      ensures artifacts == old(artifacts)
    {
      ledger.AppendRow(scenarioName, promptName, language, withLanguageInfo, scenarioType);
      trace := trace + [RowAppended(LedgerRow(scenarioName, promptName, language, withLanguageInfo, scenarioType))];
      assert trace[..|trace| - 1] == old(trace);
    }
  }

  // ---------------------------------------------------------------------
  // What one run does, as functions

  /** The generator target of a scenario type. */
  function TargetOf(kind: ScenarioType): Target
    requires kind != Unknown
  {
    match kind
    case Function => FunctionDoc
    case Class => ClassDoc
    case Project => ProjectDoc
  }

  /** The prompt submitted for a scenario and a prompt body, without or with the language. */
  function PairPrompt(s: Scenario, body: string, kind: ScenarioType, includeLanguage: bool): string
    requires kind != Unknown
  {
    ComposedPrompt(TargetOf(kind), body, includeLanguage, s.language, s.input)
  }

  /** The prompts submitted for one scenario and one prompt: none for an empty input, else two. */
  function PairPrompts(s: Scenario, body: string, kind: ScenarioType): seq<string> {
    if kind == Unknown || s.input == "" then []
    else [PairPrompt(s, body, kind, false)] + [PairPrompt(s, body, kind, true)]
  }

  /** The result file a run writes: "_result.txt", or "_result_language.txt" with the language. */
  function ResultFileName(name: string, includeLanguage: bool): (r: string)
    ensures |r| > |name| && r[..|name|] == name
  {
    name + (if includeLanguage then LanguageResultSuffix else ResultSuffix)
  }

  /** The two runs of a pair never write the same file. */
  lemma ResultFilesDiffer(name1: string, name2: string)
    ensures ResultFileName(name1, false) != ResultFileName(name2, true)
  {
    var a := ResultFileName(name1, false);
    var b := ResultFileName(name2, true);
    assert a[|a| - 8] == ResultSuffix[3] == 's';
    assert b[|b| - 8] == LanguageResultSuffix[12] == 'u';
  }

  /** The writes of one run: its result file, then its ledger row. */
  function RunEffects(engine: string -> Completion, s: Scenario, name: string, body: string, kind: ScenarioType,
                      includeLanguage: bool): seq<Effect>
    requires kind != Unknown
  {
    [ResultWritten(s.directoryPath, ResultFileName(name, includeLanguage), Answer(engine, PairPrompt(s, body, kind, includeLanguage))),
     RowAppended(LedgerRow(ScenarioName(s.directoryPath), name, s.language, includeLanguage, kind))]
  }

  /**
   * The writes for one scenario and one prompt: nothing for an empty input,
   * else the run without the language, then the run with it.
   */
  function PairEffects(engine: string -> Completion, s: Scenario, name: string, body: string, kind: ScenarioType): (e: seq<Effect>)
    ensures |e| == if kind == Unknown || s.input == "" then 0 else 4
  {
    if kind == Unknown || s.input == "" then []
    else RunEffects(engine, s, name, body, kind, false) + RunEffects(engine, s, name, body, kind, true)
  }

  /** One scenario against every prompt, in catalog order. */
  function ScenarioEffects(engine: string -> Completion, s: Scenario, prompts: seq<(string, string)>, kind: ScenarioType): seq<Effect> {
    if prompts == [] then []
    else
      var p := prompts[|prompts| - 1];
      ScenarioEffects(engine, s, prompts[..|prompts| - 1], kind) + PairEffects(engine, s, p.0, p.1, kind)
  }

  function ScenarioPrompts(s: Scenario, prompts: seq<(string, string)>, kind: ScenarioType): seq<string> {
    if prompts == [] then []
    else ScenarioPrompts(s, prompts[..|prompts| - 1], kind) + PairPrompts(s, prompts[|prompts| - 1].1, kind)
  }

  /** ProcessScenarios: every scenario, in order, against every prompt. */
  function BatchEffects(engine: string -> Completion, scenarios: seq<Scenario>, prompts: seq<(string, string)>, kind: ScenarioType): seq<Effect> {
    if scenarios == [] then []
    else BatchEffects(engine, scenarios[..|scenarios| - 1], prompts, kind) + ScenarioEffects(engine, scenarios[|scenarios| - 1], prompts, kind)
  }

  function BatchPrompts(scenarios: seq<Scenario>, prompts: seq<(string, string)>, kind: ScenarioType): seq<string> {
    if scenarios == [] then []
    else BatchPrompts(scenarios[..|scenarios| - 1], prompts, kind) + ScenarioPrompts(scenarios[|scenarios| - 1], prompts, kind)
  }

  lemma AppendAssoc<T>(a: seq<T>, b: seq<T>, c: seq<T>)
    ensures (a + b) + c == a + (b + c)
  {
  }

  lemma ScenarioStep(engine: string -> Completion, s: Scenario, prompts: seq<(string, string)>, kind: ScenarioType, j: nat)
    requires j < |prompts|
    ensures ScenarioEffects(engine, s, prompts[..j + 1], kind) == ScenarioEffects(engine, s, prompts[..j], kind) + PairEffects(engine, s, prompts[j].0, prompts[j].1, kind)
    ensures ScenarioPrompts(s, prompts[..j + 1], kind) == ScenarioPrompts(s, prompts[..j], kind) + PairPrompts(s, prompts[j].1, kind)
  {
    assert prompts[..j + 1][..j] == prompts[..j];
  }

  lemma BatchStep(engine: string -> Completion, scenarios: seq<Scenario>, prompts: seq<(string, string)>, kind: ScenarioType, i: nat)
    requires i < |scenarios|
    ensures BatchEffects(engine, scenarios[..i + 1], prompts, kind) == BatchEffects(engine, scenarios[..i], prompts, kind) + ScenarioEffects(engine, scenarios[i], prompts, kind)
    ensures BatchPrompts(scenarios[..i + 1], prompts, kind) == BatchPrompts(scenarios[..i], prompts, kind) + ScenarioPrompts(scenarios[i], prompts, kind)
  {
    assert scenarios[..i + 1][..i] == scenarios[..i];
  }

  // ---------------------------------------------------------------------
  // The batch executor

  /**
   * GenerateByType: dispatches on the scenario type; an Unknown type gives
   * the empty string without calling the generator.
   */
  method GenerateByType(generator: Phi3DocuGenerator, kind: ScenarioType, input: Option<string>, language: Option<string>)
    returns (r: Result<string, UsageError>)
    modifies generator.environment
    ensures kind == Unknown ==>
              r == Success("") && generator.environment.submitted == old(generator.environment.submitted)
    ensures kind != Unknown && generator.template == null ==>
              r == Failure(InvalidOperation) && generator.environment.submitted == old(generator.environment.submitted)
    ensures kind != Unknown && generator.template != null ==>
              && generator.environment.submitted ==
                   old(generator.environment.submitted) + [TemplatePrompt(kind, generator.template, language, input)]
              && r == Success(Answer(generator.environment.engine, TemplatePrompt(kind, generator.template, language, input)))
  {
    match kind
    case Function => r := generator.GenerateFunctionDocumentation(input, language);
    case Class => r := generator.GenerateClassDocumentation(input, language);
    case Project => r := generator.GenerateProjectDocumentation(input, language);
    case Unknown => r := Success("");
  }

  /** The prompt the generator composes from a template for a scenario type. */
  function TemplatePrompt(kind: ScenarioType, template: PromptTemplate, language: Option<string>, input: Option<string>): string
    requires kind != Unknown
    reads template
  {
    ComposedPrompt(TargetOf(kind), Interpolated(Body(TargetOf(kind), template)), template.includeLanguageInfo,
                   Interpolated(language), Interpolated(input))
  }

  /** The template a pair leaves on the generator: the pair's body for its type, and the flag. */
  ghost predicate TemplateHolds(generator: Phi3DocuGenerator, kind: ScenarioType, body: string, includeLanguage: bool)
    requires kind != Unknown
    reads generator, generator.template
  {
    && generator.template != null
    && Body(TargetOf(kind), generator.template) == Some(body)
    && generator.template.includeLanguageInfo == includeLanguage
    && forall t :: t != TargetOf(kind) ==> Body(t, generator.template) == None
  }

  /** A new template carrying the prompt body in the field of the scenario's type. */
  method NewTemplate(kind: ScenarioType, body: string) returns (template: PromptTemplate)
    requires kind != Unknown
    ensures fresh(template)
    ensures Body(TargetOf(kind), template) == Some(body) && !template.includeLanguageInfo
    ensures forall t :: t != TargetOf(kind) ==> Body(t, template) == None
  {
    template := new PromptTemplate();
    match kind {
      case Function => template.functionPrompt := Some(body);
      case Class => template.classPrompt := Some(body);
      case Project => template.projectPrompt := Some(body);
    }
  }

  /**
   * The body of ProcessScenarios' inner loop for one scenario and one prompt.
   * A fresh template is set on the generator even when the input is empty;
   * only then are the two runs skipped.
   */
  method ProcessPair(s: Scenario, name: string, body: string, kind: ScenarioType,
                     generator: Phi3DocuGenerator, workspace: Workspace)
    requires workspace.Valid()
    modifies generator, generator.environment, workspace, workspace.ledger
    ensures workspace.Valid()
    ensures workspace.trace == old(workspace.trace) + PairEffects(generator.environment.engine, s, name, body, kind)
    ensures generator.environment.submitted == old(generator.environment.submitted) + PairPrompts(s, body, kind)
    ensures kind == Unknown ==> generator.template == old(generator.template)
    ensures kind != Unknown ==>
              TemplateHolds(generator, kind, body, s.input != "") && fresh(generator.template)
  {
    if kind == Unknown {
      return;
    }
    var template := NewTemplate(kind, body);

    var _ := generator.UseTemplate(template);

    if s.input == "" {
      return;
    }

    RunBoth(s, name, body, kind, template, generator, workspace);
  }

  /** The two runs of a pair with a non-empty input: without the language, then with it. */
  method RunBoth(s: Scenario, name: string, body: string, kind: ScenarioType,
                 template: PromptTemplate, generator: Phi3DocuGenerator, workspace: Workspace)
    requires kind != Unknown && s.input != ""
    requires generator.template == template
    requires Body(TargetOf(kind), template) == Some(body) && !template.includeLanguageInfo
    requires workspace.Valid()
    modifies template`includeLanguageInfo, generator.environment, workspace, workspace.ledger
    ensures workspace.Valid()
    ensures workspace.trace == old(workspace.trace) + PairEffects(generator.environment.engine, s, name, body, kind)
    ensures generator.environment.submitted == old(generator.environment.submitted) + PairPrompts(s, body, kind)
    ensures Body(TargetOf(kind), template) == Some(body) && template.includeLanguageInfo
  {
    ghost var trace0 := workspace.trace;
    ghost var submitted0 := generator.environment.submitted;
    RunOnce(s, name, body, kind, false, template, generator, workspace);
    template.includeLanguageInfo := true;
    RunOnce(s, name, body, kind, true, template, generator, workspace);
    ghost var engine := generator.environment.engine;
    AppendAssoc(trace0, RunEffects(engine, s, name, body, kind, false), RunEffects(engine, s, name, body, kind, true));
    AppendAssoc(submitted0, [PairPrompt(s, body, kind, false)], [PairPrompt(s, body, kind, true)]);
  }

  /**
   * One run of a pair with a non-empty input: generate with the current
   * template, write the result file, append the ledger row.
   */
  method RunOnce(s: Scenario, name: string, body: string, kind: ScenarioType, includeLanguage: bool,
                 template: PromptTemplate, generator: Phi3DocuGenerator, workspace: Workspace)
    requires kind != Unknown
    requires generator.template == template
    requires Body(TargetOf(kind), template) == Some(body) && template.includeLanguageInfo == includeLanguage
    requires workspace.Valid()
    modifies generator.environment, workspace, workspace.ledger
    ensures workspace.Valid()
    ensures workspace.trace == old(workspace.trace) + RunEffects(generator.environment.engine, s, name, body, kind, includeLanguage)
    ensures generator.environment.submitted == old(generator.environment.submitted) + [PairPrompt(s, body, kind, includeLanguage)]
  {
    ghost var prompt := PairPrompt(s, body, kind, includeLanguage);
    var output := GenerateByType(generator, kind, Some(s.input), Some(s.language));
    assert output == Success(Answer(generator.environment.engine, prompt));
    workspace.WriteResultFile(s.directoryPath, ResultFileName(name, includeLanguage), Some(output.value));
    workspace.AppendRow(ScenarioName(s.directoryPath), name, s.language, includeLanguage, kind);
  }

  /**
   * One iteration of ProcessScenarios' outer loop: a scenario against every
   * prompt, in catalog order.
   */
  method ProcessScenario(s: Scenario, prompts: seq<(string, string)>, kind: ScenarioType,
                         generator: Phi3DocuGenerator, workspace: Workspace)
    requires workspace.Valid()
    modifies generator, generator.environment, workspace, workspace.ledger
    ensures workspace.Valid()
    ensures workspace.trace == old(workspace.trace) + ScenarioEffects(generator.environment.engine, s, prompts, kind)
    ensures generator.environment.submitted == old(generator.environment.submitted) + ScenarioPrompts(s, prompts, kind)
  {
    ghost var engine := generator.environment.engine;
    ghost var trace0 := workspace.trace;
    ghost var submitted0 := generator.environment.submitted;
    for j := 0 to |prompts|
      invariant workspace.Valid()
      invariant workspace.trace == trace0 + ScenarioEffects(engine, s, prompts[..j], kind)
      invariant generator.environment.submitted == submitted0 + ScenarioPrompts(s, prompts[..j], kind)
    {
      ProcessPair(s, prompts[j].0, prompts[j].1, kind, generator, workspace);
      ScenarioStep(engine, s, prompts, kind, j);
      AppendAssoc(trace0, ScenarioEffects(engine, s, prompts[..j], kind), PairEffects(engine, s, prompts[j].0, prompts[j].1, kind));
      AppendAssoc(submitted0, ScenarioPrompts(s, prompts[..j], kind), PairPrompts(s, prompts[j].1, kind));
    }
    assert prompts[..|prompts|] == prompts;
  }

  /**
   * ProcessScenarios: every scenario against every prompt of its type.
   * Its writes and its prompts are those of the batch, in order.
   */
  method ProcessScenarios(scenarios: seq<Scenario>, prompts: seq<(string, string)>, kind: ScenarioType,
                          generator: Phi3DocuGenerator, workspace: Workspace)
    requires workspace.Valid()
    modifies generator, generator.environment, workspace, workspace.ledger
    ensures workspace.Valid()
    ensures workspace.trace == old(workspace.trace) + BatchEffects(generator.environment.engine, scenarios, prompts, kind)
    ensures generator.environment.submitted == old(generator.environment.submitted) + BatchPrompts(scenarios, prompts, kind)
  {
    ghost var engine := generator.environment.engine;
    ghost var trace0 := workspace.trace;
    ghost var submitted0 := generator.environment.submitted;
    for i := 0 to |scenarios|
      invariant workspace.Valid()
      invariant workspace.trace == trace0 + BatchEffects(engine, scenarios[..i], prompts, kind)
      invariant generator.environment.submitted == submitted0 + BatchPrompts(scenarios[..i], prompts, kind)
    {
      ProcessScenario(scenarios[i], prompts, kind, generator, workspace);
      BatchStep(engine, scenarios, prompts, kind, i);
      AppendAssoc(trace0, BatchEffects(engine, scenarios[..i], prompts, kind), ScenarioEffects(engine, scenarios[i], prompts, kind));
      AppendAssoc(submitted0, BatchPrompts(scenarios[..i], prompts, kind), ScenarioPrompts(scenarios[i], prompts, kind));
    }
    assert scenarios[..|scenarios|] == scenarios;
  }

  // ---------------------------------------------------------------------
  // The experiment run of Main

  /** The writes of a whole run: the ledger header, then Function, Class and Project batches. */
  function ExperimentEffects(engine: string -> Completion, functionPrompts: seq<(string, string)>,
                             classPrompts: seq<(string, string)>, projectPrompts: seq<(string, string)>,
                             scenarios: seq<Scenario>): seq<Effect> {
    [HeaderEnsured]
    + BatchEffects(engine, OfType(scenarios, Function), functionPrompts, Function)
    + BatchEffects(engine, OfType(scenarios, Class), classPrompts, Class)
    + BatchEffects(engine, OfType(scenarios, Project), projectPrompts, Project)
  }

  /** The prompts of a whole run, in the order they reach the backend. */
  function ExperimentPrompts(functionPrompts: seq<(string, string)>, classPrompts: seq<(string, string)>,
                             projectPrompts: seq<(string, string)>, scenarios: seq<Scenario>): seq<string> {
    BatchPrompts(OfType(scenarios, Function), functionPrompts, Function)
    + BatchPrompts(OfType(scenarios, Class), classPrompts, Class)
    + BatchPrompts(OfType(scenarios, Project), projectPrompts, Project)
  }

  /**
   * Main without console output: load the three prompt folders and the
   * scenarios, ensure the ledger header, and process the Function, Class
   * and Project scenarios in that order with one generator.
   */
  method RunExperiment(environment: Phi3Environment, classFolder: Option<seq<FileEntry>>,
                       functionFolder: Option<seq<FileEntry>>, projectFolder: Option<seq<FileEntry>>,
                       root: Option<seq<Folder>>, workspace: Workspace)
    requires workspace.Valid()
    modifies environment, workspace, workspace.ledger
    ensures workspace.Valid()
    ensures workspace.trace == old(workspace.trace) +
              ExperimentEffects(environment.engine, PromptsIn(functionFolder), PromptsIn(classFolder),
                                PromptsIn(projectFolder), ScenariosIn(root))
    ensures environment.submitted == old(environment.submitted) +
              ExperimentPrompts(PromptsIn(functionFolder), PromptsIn(classFolder), PromptsIn(projectFolder),
                                ScenariosIn(root))
  {
    var classPrompts := LoadPromptFolder(classFolder);
    var functionPrompts := LoadPromptFolder(functionFolder);
    var projectPrompts := LoadPromptFolder(projectFolder);
    var scenarios := LoadScenarios(root);
    ghost var trace0 := workspace.trace;
    ghost var submitted0 := environment.submitted;

    workspace.EnsureLedgerHeader();
    var generator := new Phi3DocuGenerator(environment);
    ghost var engine := environment.engine;
    ghost var done: seq<Effect> := [HeaderEnsured];

    var functions := FilterScenariosByType(scenarios, Function);
    ProcessScenarios(functions, functionPrompts, Function, generator, workspace);
    AppendAssoc(trace0, done, BatchEffects(engine, functions, functionPrompts, Function));
    done := done + BatchEffects(engine, functions, functionPrompts, Function);
    ghost var asked := BatchPrompts(functions, functionPrompts, Function);

    var classes := FilterScenariosByType(scenarios, Class);
    ProcessScenarios(classes, classPrompts, Class, generator, workspace);
    AppendAssoc(trace0, done, BatchEffects(engine, classes, classPrompts, Class));
    AppendAssoc(submitted0, asked, BatchPrompts(classes, classPrompts, Class));
    done := done + BatchEffects(engine, classes, classPrompts, Class);
    asked := asked + BatchPrompts(classes, classPrompts, Class);

    var projects := FilterScenariosByType(scenarios, Project);
    ProcessScenarios(projects, projectPrompts, Project, generator, workspace);
    AppendAssoc(trace0, done, BatchEffects(engine, projects, projectPrompts, Project));
    AppendAssoc(submitted0, asked, BatchPrompts(projects, projectPrompts, Project));
    assert done + BatchEffects(engine, projects, projectPrompts, Project) ==
      ExperimentEffects(engine, functionPrompts, classPrompts, projectPrompts, scenarios);
    assert asked + BatchPrompts(projects, projectPrompts, Project) ==
      ExperimentPrompts(functionPrompts, classPrompts, projectPrompts, scenarios);
  }

  // ---------------------------------------------------------------------
  // Properties of a run

  /** The ledger rows among a sequence of effects, in order. */
  function RowsOf(effects: seq<Effect>): seq<LedgerRow> {
    if effects == [] then []
    else
      var last := effects[|effects| - 1];
      RowsOf(effects[..|effects| - 1]) + (if last.RowAppended? then [last.row] else [])
  }

  /** The contents written to result files, in order. */
  function ContentsOf(effects: seq<Effect>): seq<string> {
    if effects == [] then []
    else
      var last := effects[|effects| - 1];
      ContentsOf(effects[..|effects| - 1]) + (if last.ResultWritten? then [last.content] else [])
  }

  /** The backend's answers to a sequence of prompts. */
  function Answers(engine: string -> Completion, prompts: seq<string>): (r: seq<string>)
    ensures |r| == |prompts|
    ensures forall i :: 0 <= i < |prompts| ==> r[i] == Answer(engine, prompts[i])
  {
    if prompts == [] then [] else Answers(engine, prompts[..|prompts| - 1]) + [Answer(engine, prompts[|prompts| - 1])]
  }

  /** The records a sequence of rows adds to the ledger. */
  function RowLines(rows: seq<LedgerRow>): (r: seq<string>)
    ensures |r| == |rows|
    ensures forall i :: 0 <= i < |rows| ==> r[i] == RowLine(rows[i])
  {
    if rows == [] then [] else RowLines(rows[..|rows| - 1]) + [RowLine(rows[|rows| - 1])]
  }

  lemma {:induction false} RowsAppend(a: seq<Effect>, b: seq<Effect>)
    ensures RowsOf(a + b) == RowsOf(a) + RowsOf(b)
    decreases |b|
  {
    if b == [] {
      assert a + b == a;
    } else {
      var b' := b[..|b| - 1];
      assert (a + b)[..|a + b| - 1] == a + b';
      RowsAppend(a, b');
    }
  }

  lemma {:induction false} ContentsAppend(a: seq<Effect>, b: seq<Effect>)
    ensures ContentsOf(a + b) == ContentsOf(a) + ContentsOf(b)
    decreases |b|
  {
    if b == [] {
      assert a + b == a;
    } else {
      var b' := b[..|b| - 1];
      assert (a + b)[..|a + b| - 1] == a + b';
      ContentsAppend(a, b');
    }
  }

  /** A header or a result file leaves the ledger's records as they are; each row adds its record. */
  lemma {:induction false} LedgerAfterExisting(lines: seq<string>, effects: seq<Effect>)
    ensures LedgerAfter(Some(lines), effects) == Some(lines + RowLines(RowsOf(effects)))
  {
    if effects != [] {
      var prefix := effects[..|effects| - 1];
      LedgerAfterExisting(lines, prefix);
      if effects[|effects| - 1].RowAppended? {
        var rows := RowsOf(prefix);
        var row := effects[|effects| - 1].row;
        assert RowsOf(effects) == rows + [row];
        assert (rows + [row])[..|rows|] == rows;
        AppendAssoc(lines, RowLines(rows), [RowLine(row)]);
      } else {
        assert RowsOf(effects) == RowsOf(prefix);
      }
    } else {
      assert lines + [] == lines;
    }
  }

  /** A non-empty pair's four writes: result, row without language, language result, row with it. */
  predicate IsPairBlock(block: seq<Effect>) {
    && |block| == 4
    && block[0].ResultWritten? && block[1].RowAppended? && block[2].ResultWritten? && block[3].RowAppended?
    && block[0].directory == block[2].directory
    && block[0].fileName == block[1].row.promptName + ResultSuffix
    && block[2].fileName == block[3].row.promptName + LanguageResultSuffix
    && !block[1].row.withLanguageInfo && block[3].row.withLanguageInfo
    && block[3].row == block[1].row.(withLanguageInfo := true)
  }

  /** A sequence of effects made of whole pair blocks. */
  predicate PairBlocks(effects: seq<Effect>)
    decreases |effects|
  {
    effects == [] || (|effects| >= 4 && IsPairBlock(effects[..4]) && PairBlocks(effects[4..]))
  }

  lemma {:induction false} PairBlocksAppend(a: seq<Effect>, b: seq<Effect>)
    requires PairBlocks(a) && PairBlocks(b)
    ensures PairBlocks(a + b)
    decreases |a|
  {
    if a == [] {
      assert a + b == b;
    } else {
      assert (a + b)[..4] == a[..4];
      assert (a + b)[4..] == a[4..] + b;
      PairBlocksAppend(a[4..], b);
    }
  }

  /** A pair writes nothing for an empty input, else one block in the order of the source. */
  lemma PairEffectsBlock(engine: string -> Completion, s: Scenario, name: string, body: string, kind: ScenarioType)
    ensures var e := PairEffects(engine, s, name, body, kind);
      && PairBlocks(e)
      && (e == [] <==> kind == Unknown || s.input == "")
      && (e != [] ==> e[0].directory == s.directoryPath && e[1].row.promptName == name
                      && e[1].row.scenarioName == ScenarioName(s.directoryPath) && e[1].row.scenarioType == kind
                      && e[1].row.language == s.language && e[3].row.language == s.language)
  {
    var e := PairEffects(engine, s, name, body, kind);
    if e != [] {
      assert e[4..] == [];
      assert e[..4] == e;
    }
  }

  /** Every batch is a sequence of pair blocks. */
  lemma {:induction false} ScenarioEffectsBlocks(engine: string -> Completion, s: Scenario, prompts: seq<(string, string)>,
                                                 kind: ScenarioType)
    ensures PairBlocks(ScenarioEffects(engine, s, prompts, kind))
  {
    if prompts != [] {
      var p := prompts[|prompts| - 1];
      ScenarioEffectsBlocks(engine, s, prompts[..|prompts| - 1], kind);
      PairEffectsBlock(engine, s, p.0, p.1, kind);
      PairBlocksAppend(ScenarioEffects(engine, s, prompts[..|prompts| - 1], kind), PairEffects(engine, s, p.0, p.1, kind));
    }
  }

  lemma {:induction false} BatchEffectsBlocks(engine: string -> Completion, scenarios: seq<Scenario>,
                                              prompts: seq<(string, string)>, kind: ScenarioType)
    ensures PairBlocks(BatchEffects(engine, scenarios, prompts, kind))
  {
    if scenarios != [] {
      var s := scenarios[|scenarios| - 1];
      BatchEffectsBlocks(engine, scenarios[..|scenarios| - 1], prompts, kind);
      ScenarioEffectsBlocks(engine, s, prompts, kind);
      PairBlocksAppend(BatchEffects(engine, scenarios[..|scenarios| - 1], prompts, kind), ScenarioEffects(engine, s, prompts, kind));
    }
  }

  lemma {:induction false} AnswersAppend(engine: string -> Completion, a: seq<string>, b: seq<string>)
    ensures Answers(engine, a + b) == Answers(engine, a) + Answers(engine, b)
  {
  }

  /** The result files of a pair hold the answers to the pair's prompts, in the order they were asked. */
  lemma PairAnswers(engine: string -> Completion, s: Scenario, name: string, body: string, kind: ScenarioType)
    ensures ContentsOf(PairEffects(engine, s, name, body, kind)) == Answers(engine, PairPrompts(s, body, kind))
  {
    if kind != Unknown && s.input != "" {
      var e := PairEffects(engine, s, name, body, kind);
      assert e[..3][..2][..1] == e[..1];
      assert ContentsOf(e[..1]) == [e[0].content];
      assert ContentsOf(e[..3][..2]) == [e[0].content];
      assert ContentsOf(e[..3]) == [e[0].content, e[2].content];
    }
  }

  /** Every result file of a batch holds the backend's answer to the prompt of its run. */
  lemma {:induction false} ScenarioAnswers(engine: string -> Completion, s: Scenario, prompts: seq<(string, string)>,
                                           kind: ScenarioType)
    ensures ContentsOf(ScenarioEffects(engine, s, prompts, kind)) == Answers(engine, ScenarioPrompts(s, prompts, kind))
  {
    if prompts != [] {
      var p := prompts[|prompts| - 1];
      var before := prompts[..|prompts| - 1];
      ScenarioAnswers(engine, s, before, kind);
      PairAnswers(engine, s, p.0, p.1, kind);
      ContentsAppend(ScenarioEffects(engine, s, before, kind), PairEffects(engine, s, p.0, p.1, kind));
      AnswersAppend(engine, ScenarioPrompts(s, before, kind), PairPrompts(s, p.1, kind));
    }
  }

  lemma {:induction false} BatchAnswers(engine: string -> Completion, scenarios: seq<Scenario>, prompts: seq<(string, string)>,
                                        kind: ScenarioType)
    ensures ContentsOf(BatchEffects(engine, scenarios, prompts, kind)) == Answers(engine, BatchPrompts(scenarios, prompts, kind))
  {
    if scenarios != [] {
      var s := scenarios[|scenarios| - 1];
      var before := scenarios[..|scenarios| - 1];
      BatchAnswers(engine, before, prompts, kind);
      ScenarioAnswers(engine, s, prompts, kind);
      ContentsAppend(BatchEffects(engine, before, prompts, kind), ScenarioEffects(engine, s, prompts, kind));
      AnswersAppend(engine, BatchPrompts(before, prompts, kind), ScenarioPrompts(s, prompts, kind));
    }
  }

  /** The number of scenarios whose input is not empty. */
  function NonEmptyInputs(scenarios: seq<Scenario>): (n: nat)
    ensures n <= |scenarios|
  {
    if scenarios == [] then 0
    else NonEmptyInputs(scenarios[..|scenarios| - 1]) + (if scenarios[|scenarios| - 1].input != "" then 1 else 0)
  }

  /** width added up once per scenario with an input. */
  function PerNonEmpty(scenarios: seq<Scenario>, width: nat): nat {
    if scenarios == [] then 0
    else PerNonEmpty(scenarios[..|scenarios| - 1], width) + (if scenarios[|scenarios| - 1].input != "" then width else 0)
  }

  lemma {:induction false} PerNonEmptyProduct(scenarios: seq<Scenario>, width: nat)
    ensures PerNonEmpty(scenarios, width) == width * NonEmptyInputs(scenarios)
  {
    if scenarios != [] {
      var before := scenarios[..|scenarios| - 1];
      PerNonEmptyProduct(before, width);
      var n := NonEmptyInputs(before);
      assert width * n + width == width * (n + 1);
    }
  }

  /** A scenario makes four writes and two backend calls per prompt, or none when its input is empty. */
  lemma {:induction false} ScenarioSize(engine: string -> Completion, s: Scenario, prompts: seq<(string, string)>,
                                        kind: ScenarioType)
    ensures |ScenarioEffects(engine, s, prompts, kind)| == if kind == Unknown || s.input == "" then 0 else 4 * |prompts|
    ensures |ScenarioPrompts(s, prompts, kind)| == if kind == Unknown || s.input == "" then 0 else 2 * |prompts|
  {
    if prompts != [] {
      ScenarioSize(engine, s, prompts[..|prompts| - 1], kind);
    }
  }

  /** A batch makes 4 * |prompts| writes and 2 * |prompts| backend calls per scenario with an input. */
  lemma BatchSize(engine: string -> Completion, scenarios: seq<Scenario>, prompts: seq<(string, string)>,
                  kind: ScenarioType)
    requires kind != Unknown
    ensures |BatchEffects(engine, scenarios, prompts, kind)| == 4 * |prompts| * NonEmptyInputs(scenarios)
    ensures |BatchPrompts(scenarios, prompts, kind)| == 2 * |prompts| * NonEmptyInputs(scenarios)
  {
    BatchCounts(engine, scenarios, prompts, kind);
    PerNonEmptyProduct(scenarios, 4 * |prompts|);
    PerNonEmptyProduct(scenarios, 2 * |prompts|);
  }

  lemma {:induction false} BatchCounts(engine: string -> Completion, scenarios: seq<Scenario>, prompts: seq<(string, string)>,
                                       kind: ScenarioType)
    requires kind != Unknown
    ensures |BatchEffects(engine, scenarios, prompts, kind)| == PerNonEmpty(scenarios, 4 * |prompts|)
    ensures |BatchPrompts(scenarios, prompts, kind)| == PerNonEmpty(scenarios, 2 * |prompts|)
  {
    if scenarios != [] {
      BatchCounts(engine, scenarios[..|scenarios| - 1], prompts, kind);
      ScenarioSize(engine, scenarios[|scenarios| - 1], prompts, kind);
    }
  }

  /** Every row in rows is of the given type. */
  predicate AllOfType(rows: seq<LedgerRow>, kind: ScenarioType) {
    forall i :: 0 <= i < |rows| ==> rows[i].scenarioType == kind
  }

  lemma PairRowsOfType(engine: string -> Completion, s: Scenario, name: string, body: string, kind: ScenarioType)
    ensures AllOfType(RowsOf(PairEffects(engine, s, name, body, kind)), kind)
  {
    var e := PairEffects(engine, s, name, body, kind);
    if e != [] {
      assert e[..3][..2][..1] == e[..1];
      assert RowsOf(e[..1]) == [];
      assert RowsOf(e[..3][..2]) == [e[1].row];
      assert RowsOf(e[..3]) == [e[1].row];
    }
  }

  lemma {:induction false} ScenarioRowsOfType(engine: string -> Completion, s: Scenario, prompts: seq<(string, string)>,
                                              kind: ScenarioType)
    ensures AllOfType(RowsOf(ScenarioEffects(engine, s, prompts, kind)), kind)
  {
    if prompts != [] {
      var p := prompts[|prompts| - 1];
      var before := prompts[..|prompts| - 1];
      ScenarioRowsOfType(engine, s, before, kind);
      PairRowsOfType(engine, s, p.0, p.1, kind);
      RowsAppend(ScenarioEffects(engine, s, before, kind), PairEffects(engine, s, p.0, p.1, kind));
    }
  }

  /** Every ledger row of a batch carries the batch's scenario type. */
  lemma {:induction false} BatchRowsOfType(engine: string -> Completion, scenarios: seq<Scenario>, prompts: seq<(string, string)>,
                                           kind: ScenarioType)
    ensures AllOfType(RowsOf(BatchEffects(engine, scenarios, prompts, kind)), kind)
  {
    if scenarios != [] {
      var s := scenarios[|scenarios| - 1];
      var before := scenarios[..|scenarios| - 1];
      BatchRowsOfType(engine, before, prompts, kind);
      ScenarioRowsOfType(engine, s, prompts, kind);
      RowsAppend(BatchEffects(engine, before, prompts, kind), ScenarioEffects(engine, s, prompts, kind));
    }
  }

  /** The order in which Main processes the scenario types. */
  function Rank(kind: ScenarioType): nat {
    match kind
    case Function => 0
    case Class => 1
    case Project => 2
    case Unknown => 3
  }

  /** Rows grouped by type: none Unknown, and no row ranked before an earlier one. */
  predicate GroupedByType(rows: seq<LedgerRow>) {
    && (forall i :: 0 <= i < |rows| ==> rows[i].scenarioType != Unknown)
    && (forall i, j :: 0 <= i < j < |rows| ==> Rank(rows[i].scenarioType) <= Rank(rows[j].scenarioType))
  }

  lemma ThreeGroups(r1: seq<LedgerRow>, r2: seq<LedgerRow>, r3: seq<LedgerRow>)
    requires AllOfType(r1, Function) && AllOfType(r2, Class) && AllOfType(r3, Project)
    ensures GroupedByType(r1 + r2 + r3)
  {
    var rows := r1 + r2 + r3;
    assert forall k :: 0 <= k < |rows| ==>
      Rank(rows[k].scenarioType) == if k < |r1| then 0 else if k < |r1| + |r2| then 1 else 2;
  }

  /**
   * The rows of a run are grouped by type: all Function rows, then all
   * Class rows, then all Project rows; no row is of type Unknown.
   */
  lemma ExperimentRowsGrouped(engine: string -> Completion, functionPrompts: seq<(string, string)>,
                              classPrompts: seq<(string, string)>, projectPrompts: seq<(string, string)>,
                              scenarios: seq<Scenario>)
    ensures GroupedByType(RowsOf(ExperimentEffects(engine, functionPrompts, classPrompts, projectPrompts, scenarios)))
  {
    var b1 := BatchEffects(engine, OfType(scenarios, Function), functionPrompts, Function);
    var b2 := BatchEffects(engine, OfType(scenarios, Class), classPrompts, Class);
    var b3 := BatchEffects(engine, OfType(scenarios, Project), projectPrompts, Project);
    BatchRowsOfType(engine, OfType(scenarios, Function), functionPrompts, Function);
    BatchRowsOfType(engine, OfType(scenarios, Class), classPrompts, Class);
    BatchRowsOfType(engine, OfType(scenarios, Project), projectPrompts, Project);
    AppendAssoc([HeaderEnsured], b1, b2);
    AppendAssoc([HeaderEnsured], b1 + b2, b3);
    HeaderThenRows(None, b1 + b2 + b3);
    RowsAppend(b1 + b2, b3);
    RowsAppend(b1, b2);
    ThreeGroups(RowsOf(b1), RowsOf(b2), RowsOf(b3));
  }

  lemma {:induction false} LedgerAfterAppend(ledger: Option<seq<string>>, a: seq<Effect>, b: seq<Effect>)
    ensures LedgerAfter(ledger, a + b) == LedgerAfter(LedgerAfter(ledger, a), b)
    decreases |b|
  {
    if b == [] {
      assert a + b == a;
    } else {
      var b' := b[..|b| - 1];
      assert (a + b)[..|a + b| - 1] == a + b';
      LedgerAfterAppend(ledger, a, b');
    }
  }

  /** A run that starts by ensuring the header: the header, then the run's row records. */
  lemma HeaderThenRows(ledger: Option<seq<string>>, rest: seq<Effect>)
    ensures LedgerAfter(ledger, [HeaderEnsured] + rest) == Some(WithHeader(ledger).value + RowLines(RowsOf(rest)))
    ensures RowsOf([HeaderEnsured] + rest) == RowsOf(rest)
  {
    LedgerAfterAppend(ledger, [HeaderEnsured], rest);
    assert LedgerAfter(ledger, [HeaderEnsured]) == WithHeader(ledger);
    LedgerAfterExisting(WithHeader(ledger).value, rest);
    RowsAppend([HeaderEnsured], rest);
    assert RowsOf([HeaderEnsured]) == [];
  }

  /**
   * After a run the ledger holds the header (written only when the file was
   * absent), then one record per row of the run, in order.
   */
  lemma ExperimentLedger(ledger: Option<seq<string>>, engine: string -> Completion, functionPrompts: seq<(string, string)>,
                         classPrompts: seq<(string, string)>, projectPrompts: seq<(string, string)>,
                         scenarios: seq<Scenario>)
    ensures var effects := ExperimentEffects(engine, functionPrompts, classPrompts, projectPrompts, scenarios);
      LedgerAfter(ledger, effects) == Some(WithHeader(ledger).value + RowLines(RowsOf(effects)))
  {
    var b1 := BatchEffects(engine, OfType(scenarios, Function), functionPrompts, Function);
    var b2 := BatchEffects(engine, OfType(scenarios, Class), classPrompts, Class);
    var b3 := BatchEffects(engine, OfType(scenarios, Project), projectPrompts, Project);
    AppendAssoc([HeaderEnsured], b1, b2);
    AppendAssoc([HeaderEnsured], b1 + b2, b3);
    HeaderThenRows(ledger, b1 + b2 + b3);
  }
}
