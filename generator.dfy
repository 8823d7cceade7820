/**
 * The documentation generator library: the inference environment, the
 * mutable prompt template and the generator that composes chat prompts from
 * them (Phi3Environment, PromptTemplate, Phi3DocuGenerator).
 *
 * The inference engine itself (model, tokenizer, decode loop) is a parameter:
 * a function from a prompt to what the engine makes of it.
 */
module Generator {
  import opened Results

  /** What the engine makes of one prompt: generated text, or an exception with its text. */
  datatype Completion = Generated(text: string) | Raised(description: string)

  /**
   * Phi3Environment.SubmitPrompt: the generated text, or, when the engine
   * raises, the exception's text in its place; it never throws.
   */
  function Answer(engine: string -> Completion, prompt: string): string {
    match engine(prompt)
    case Generated(text) => text
    case Raised(description) => description
  }

  /** The inference environment; `submitted` records every prompt sent to the engine. */
  class Phi3Environment {
    const engine: string -> Completion
    ghost var submitted: seq<string>

    constructor (engine: string -> Completion)
      ensures this.engine == engine && submitted == []
    {
      this.engine := engine;
      submitted := [];
    }

    /** Runs the engine on one prompt; a failure comes back as its text. */
    method SubmitPrompt(prompt: string) returns (output: string)
      modifies this
      ensures submitted == old(submitted) + [prompt]
      ensures output == Answer(engine, prompt)
    {
      submitted := submitted + [prompt];
      match engine(prompt) {
        case Generated(text) => output := text;
        case Raised(description) => output := description;
      }
    }
  }

  /** PromptTemplate: three nullable prompt bodies and the language flag, false at first. */
  class PromptTemplate {
    var functionPrompt: Option<string>
    var classPrompt: Option<string>
    var projectPrompt: Option<string>
    var includeLanguageInfo: bool

    constructor ()
      ensures functionPrompt == None && classPrompt == None && projectPrompt == None
      ensures !includeLanguageInfo
    {
      functionPrompt, classPrompt, projectPrompt := None, None, None;
      includeLanguageInfo := false;
    }
  }

  /** How string interpolation renders a possibly-null string: null becomes "". */
  function Interpolated(s: Option<string>): string {
    s.GetOr("")
  }

  // ---------------------------------------------------------------------
  // Prompt composition

  const SystemTag := "<|system|>"
  const EndTag := "<|end|>"
  const UserTag := "<|user|>"
  const AssistantTag := "<|assistant|>"

  /** The completion-style frame: system segment, user segment, and an empty assistant segment. */
  function ChatPrompt(system: string, user: string): string {
    SystemTag + system + EndTag + UserTag + user + EndTag + AssistantTag
  }

  const FunctionLead := "Create the function documentation for the following "
  const ClassLead := "Create the class documentation for the following "
  const ProjectLead := "Create a project documentation for the following "
  const CodeLead := " code: "
  const BareCodeLead := "code: "

  /** User text of GenerateFunctionDocumentation: the language slot exists only with the flag. */
  function FunctionRequest(includeLanguage: bool, language: string, code: string): string {
    if includeLanguage then FunctionLead + language + CodeLead + code
    else FunctionLead + BareCodeLead + code
  }

  /** User text of GenerateClassDocumentation: the slot is always there, empty without the flag. */
  function ClassRequest(includeLanguage: bool, language: string, code: string): string {
    ClassLead + (if includeLanguage then language else "") + CodeLead + code
  }

  /** User text of GenerateProjectDocumentation: as for classes, with project wording. */
  function ProjectRequest(includeLanguage: bool, language: string, code: string): string {
    ProjectLead + (if includeLanguage then language else "") + CodeLead + code
  }

  /** The three documentation targets of the generator. */
  datatype Target = FunctionDoc | ClassDoc | ProjectDoc

  /** The user text for a target. */
  function Request(target: Target, includeLanguage: bool, language: string, code: string): string {
    match target
    case FunctionDoc => FunctionRequest(includeLanguage, language, code)
    case ClassDoc => ClassRequest(includeLanguage, language, code)
    case ProjectDoc => ProjectRequest(includeLanguage, language, code)
  }

  /** The words before the language slot, for each target. */
  function Lead(target: Target): string {
    match target
    case FunctionDoc => FunctionLead
    case ClassDoc => ClassLead
    case ProjectDoc => ProjectLead
  }

  /** Everything in the user text before the code. */
  function Head(target: Target, includeLanguage: bool, language: string): string {
    if target == FunctionDoc && !includeLanguage then Lead(target) + BareCodeLead
    else Lead(target) + (if includeLanguage then language else "") + CodeLead
  }

  /** The user text is the head followed by the code, and nothing after it. */
  lemma RequestShape(target: Target, includeLanguage: bool, language: string, code: string)
    ensures Request(target, includeLanguage, language, code) == Head(target, includeLanguage, language) + code
  {
    var lang := if includeLanguage then language else "";
    if target == FunctionDoc && !includeLanguage {
      assert FunctionLead + BareCodeLead + code == (FunctionLead + BareCodeLead) + code;
    } else {
      assert Lead(target) + lang + CodeLead + code == (Lead(target) + lang + CodeLead) + code;
    }
  }

  /**
   * Without the flag, the language is ignored; classes and projects keep an
   * empty slot (two spaces before "code"), functions drop the slot entirely.
   */
  lemma RequestWithoutLanguage(target: Target, language: string, code: string)
    ensures target != FunctionDoc ==> Request(target, false, language, code) == Request(target, true, "", code)
    ensures target == FunctionDoc ==>
              Request(target, false, language, code) == Lead(target) + BareCodeLead + code &&
              |Request(target, false, language, code)| + 1 == |Request(target, true, "", code)|
  {
    RequestShape(target, false, language, code);
    RequestShape(target, true, "", code);
  }

  /** The prompt a Generate* call submits for a template body, flag, language and code. */
  function ComposedPrompt(target: Target, system: string, includeLanguage: bool, language: string, code: string): string {
    ChatPrompt(system, Request(target, includeLanguage, language, code))
  }

  /** (a + x + b == a + y + b) means x == y. */
  lemma {:induction false} CancelFrame(a: string, x: string, y: string, b: string)
    requires a + x + b == a + y + b
    ensures x == y
  {
    assert |x| == |y|;
    assert x == (a + x + b)[|a|..|a| + |x|];
    assert y == (a + y + b)[|a|..|a| + |y|];
  }

  /** A composed prompt split around its code. */
  lemma PromptAroundCode(target: Target, system: string, includeLanguage: bool, language: string, code: string)
    ensures ComposedPrompt(target, system, includeLanguage, language, code) ==
            (SystemTag + system + EndTag + UserTag + Head(target, includeLanguage, language)) + code + (EndTag + AssistantTag)
  {
    RequestShape(target, includeLanguage, language, code);
    AroundCode(SystemTag + system + EndTag + UserTag, Head(target, includeLanguage, language), code, EndTag, AssistantTag);
  }

  lemma AroundCode(before: string, head: string, code: string, end: string, assistant: string)
    ensures before + (head + code) + end + assistant == (before + head) + code + (end + assistant)
  {
  }

  /**
   * Every composed prompt opens with the system tag and the template body,
   * and ends with the code followed by the closing tags: the assistant
   * segment is empty and the code is the last thing before it.
   */
  lemma PromptLayout(target: Target, system: string, includeLanguage: bool, language: string, code: string)
    ensures var p := ComposedPrompt(target, system, includeLanguage, language, code);
      && |p| >= |SystemTag| + |system| + |code| + |EndTag| + |AssistantTag|
      && p[..|SystemTag|] == SystemTag
      && p[|SystemTag|..|SystemTag| + |system|] == system
      && p[|p| - |EndTag| - |AssistantTag|..] == EndTag + AssistantTag
      && p[|p| - |EndTag| - |AssistantTag| - |code|..|p| - |EndTag| - |AssistantTag|] == code
  {
    var head := Head(target, includeLanguage, language);
    PromptAroundCode(target, system, includeLanguage, language, code);
    Regroup(SystemTag, system, EndTag, UserTag, head);
    Frame(SystemTag, system, EndTag + UserTag + head, code, EndTag, AssistantTag);
  }

  lemma Regroup(tag: string, system: string, end: string, user: string, head: string)
    ensures tag + system + end + user + head == tag + system + (end + user + head)
  {
  }

  /** The slices of a prompt laid out as tag, system, middle, code, closing tags. */
  lemma Frame(tag: string, system: string, middle: string, code: string, end: string, assistant: string)
    ensures var p := (tag + system + middle) + code + (end + assistant);
      && |p| >= |tag| + |system| + |code| + |end| + |assistant|
      && p[..|tag|] == tag
      && p[|tag|..|tag| + |system|] == system
      && p[|p| - |end| - |assistant|..] == end + assistant
      && p[|p| - |end| - |assistant| - |code|..|p| - |end| - |assistant|] == code
  {
    var p := (tag + system + middle) + code + (end + assistant);
    assert p[..|tag|] == tag;
    assert p[|tag|..|tag| + |system|] == system;
    assert p[|p| - |end| - |assistant|..] == end + assistant;
    assert p[|p| - |end| - |assistant| - |code|..|p| - |end| - |assistant|] == code;
  }

  /** With the flag on, the language can be read back from the prompt: different hints give different prompts. */
  lemma LanguageDeterminesPrompt(target: Target, system: string, language1: string, language2: string, code: string)
    requires ComposedPrompt(target, system, true, language1, code) == ComposedPrompt(target, system, true, language2, code)
    ensures language1 == language2
  {
    var before := SystemTag + system + EndTag + UserTag;
    var a := before + Lead(target);
    var b := CodeLead + code + (EndTag + AssistantTag);
    assert Head(target, true, language1) == Lead(target) + language1 + CodeLead;
    assert Head(target, true, language2) == Lead(target) + language2 + CodeLead;
    PromptAroundCode(target, system, true, language1, code);
    PromptAroundCode(target, system, true, language2, code);
    WithLanguage(before, Lead(target), language1, code);
    WithLanguage(before, Lead(target), language2, code);
    CancelFrame(a, language1, language2, b);
  }

  /** Regrouping a prompt with the flag on around its language. */
  lemma WithLanguage(before: string, lead: string, language: string, code: string)
    ensures before + (lead + language + CodeLead) + code + (EndTag + AssistantTag) ==
            (before + lead) + language + (CodeLead + code + (EndTag + AssistantTag))
  {
  }

  /** The code can be read back from the prompt: different inputs give different prompts. */
  lemma CodeDeterminesPrompt(target: Target, system: string, includeLanguage: bool, language: string, code1: string, code2: string)
    requires ComposedPrompt(target, system, includeLanguage, language, code1) ==
             ComposedPrompt(target, system, includeLanguage, language, code2)
    ensures code1 == code2
  {
    PromptAroundCode(target, system, includeLanguage, language, code1);
    PromptAroundCode(target, system, includeLanguage, language, code2);
    CancelFrame(SystemTag + system + EndTag + UserTag + Head(target, includeLanguage, language),
                code1, code2, EndTag + AssistantTag);
  }

  // ---------------------------------------------------------------------
  // The generator

  /** The exceptions the generator throws on misuse. */
  datatype UsageError = ArgumentNull | InvalidOperation

  class Phi3DocuGenerator {
    const environment: Phi3Environment
    var template: PromptTemplate?

    constructor (environment: Phi3Environment)
      ensures this.environment == environment && template == null
    {
      this.environment := environment;
      template := null;
    }

    /** Makes the given template the current one; null is refused and changes nothing. */
    method UseTemplate(template: PromptTemplate?) returns (outcome: Outcome<UsageError>)
      modifies this`template
      ensures template == null ==> outcome == Fail(ArgumentNull) && this.template == old(this.template)
      ensures template != null ==> outcome == Pass && this.template == template
    {
      if template == null {
        return Fail(ArgumentNull);
      }
      this.template := template;
      outcome := Pass;
    }

    /**
     * The shared body of the three Generate* methods: without a template,
     * InvalidOperation before anything is submitted; otherwise exactly one
     * prompt, composed from the current template, is submitted and the
     * engine's answer is returned unchanged.
     */
    method Generate(target: Target, definition: Option<string>, language: Option<string>)
      returns (r: Result<string, UsageError>)
      modifies environment
      ensures template == null ==>
                r == Failure(InvalidOperation) && environment.submitted == old(environment.submitted)
      ensures template != null ==>
                var prompt := ComposedPrompt(target, Interpolated(Body(target, template)),
                                             template.includeLanguageInfo, Interpolated(language),
                                             Interpolated(definition));
                && environment.submitted == old(environment.submitted) + [prompt]
                && r == Success(Answer(environment.engine, prompt))
    {
      if template == null {
        return Failure(InvalidOperation);
      }
      var prompt := ComposedPrompt(target, Interpolated(Body(target, template)),
                                   template.includeLanguageInfo, Interpolated(language),
                                   Interpolated(definition));
      var output := environment.SubmitPrompt(prompt);
      r := Success(output);
    }

    /** Generate for function documentation; an omitted language is "C#". */
    method GenerateFunctionDocumentation(functionDefinition: Option<string>, language: Option<string> := Some("C#"))
      returns (r: Result<string, UsageError>)
      modifies environment
      ensures template == null ==>
                r == Failure(InvalidOperation) && environment.submitted == old(environment.submitted)
      ensures template != null ==>
                var prompt := ChatPrompt(Interpolated(template.functionPrompt),
                                         FunctionRequest(template.includeLanguageInfo, Interpolated(language),
                                                         Interpolated(functionDefinition)));
                && environment.submitted == old(environment.submitted) + [prompt]
                && r == Success(Answer(environment.engine, prompt))
    {
      r := Generate(FunctionDoc, functionDefinition, language);
    }

    /** Generate for class documentation; an omitted language is "C#". */
    method GenerateClassDocumentation(classDefinition: Option<string>, language: Option<string> := Some("C#"))
      returns (r: Result<string, UsageError>)
      modifies environment
      ensures template == null ==>
                r == Failure(InvalidOperation) && environment.submitted == old(environment.submitted)
      ensures template != null ==>
                var prompt := ChatPrompt(Interpolated(template.classPrompt),
                                         ClassRequest(template.includeLanguageInfo, Interpolated(language),
                                                      Interpolated(classDefinition)));
                && environment.submitted == old(environment.submitted) + [prompt]
                && r == Success(Answer(environment.engine, prompt))
    {
      r := Generate(ClassDoc, classDefinition, language);
    }

    /** Generate for project documentation; an omitted language is "C#". */
    method GenerateProjectDocumentation(projectDefinition: Option<string>, language: Option<string> := Some("C#"))
      returns (r: Result<string, UsageError>)
      modifies environment
      ensures template == null ==>
                r == Failure(InvalidOperation) && environment.submitted == old(environment.submitted)
      ensures template != null ==>
                var prompt := ChatPrompt(Interpolated(template.projectPrompt),
                                         ProjectRequest(template.includeLanguageInfo, Interpolated(language),
                                                        Interpolated(projectDefinition)));
                && environment.submitted == old(environment.submitted) + [prompt]
                && r == Success(Answer(environment.engine, prompt))
    {
      r := Generate(ProjectDoc, projectDefinition, language);
    }
  }

  /** The template body a target reads. */
  function Body(target: Target, t: PromptTemplate): Option<string>
    reads t`functionPrompt, t`classPrompt, t`projectPrompt
  {
    match target
    case FunctionDoc => t.functionPrompt
    case ClassDoc => t.classPrompt
    case ProjectDoc => t.projectPrompt
  }
}
