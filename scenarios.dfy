/** The scenario records discovered on disk and consumed by the batch run. */
module Scenarios {

  /** The documentation target a scenario folder is marked with. */
  datatype ScenarioType = Unknown | Class | Function | Project

  /** ScenarioType.ToString(): the member's name. */
  function TypeName(kind: ScenarioType): string {
    match kind
    case Unknown => "Unknown"
    case Class => "Class"
    case Function => "Function"
    case Project => "Project"
  }

  /** One test case: its folder, the code to document, the language hint and its type. */
  datatype Scenario = Scenario(directoryPath: string, input: string, language: string, kind: ScenarioType)
}
