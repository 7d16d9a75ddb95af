// Engine configuration: which LLM each module uses, and how the conversation begins.
module Configuration {
  import opened Wrappers

  datatype LLMConfiguration = LLMConfiguration(id: string, temperature: real)

  /** `Union[LLMConfiguration, str]`. */
  datatype LlmSetting = LlmName(id: string) | LlmConfig(config: LLMConfiguration)

  datatype ModuleConfiguration = ModuleConfiguration(name: string, llm: LlmSetting)

  /** Who speaks first and the greeting used when the chatbot does. */
  datatype Begin = Begin(greeting: string, withWhom: string)

  datatype ConfigurationModel = ConfigurationModel(defaultLlm: LlmSetting, languages: string,
                                                   modules: seq<ModuleConfiguration>, begin: Option<Begin>)

  /** `ConfigurationModel(default_llm=...)` with every other field defaulted. */
  function DefaultConfigurationModel(defaultLlm: LlmSetting): (c: ConfigurationModel)
    ensures c.defaultLlm == defaultLlm && c.languages == "any" && c.modules == [] && c.begin.None?
  {
    ConfigurationModel(defaultLlm, "any", [], None)
  }

  /** `__to_llm_config`: a bare id becomes a configuration at temperature 0.0. */
  function ToLlmConfig(s: LlmSetting): (r: LLMConfiguration)
    ensures s.LlmName? ==> r.id == s.id && r.temperature == 0.0
    ensures s.LlmConfig? ==> r == s.config
  {
    match s
    case LlmName(id) => LLMConfiguration(id, 0.0)
    case LlmConfig(c) => c
  }

  function FirstModuleLlm(modules: seq<ModuleConfiguration>, name: string, from: nat): Option<LlmSetting>
    decreases |modules| - from
  {
    if from >= |modules| then None
    else if modules[from].name == name then Some(modules[from].llm)
    else FirstModuleLlm(modules, name, from + 1)
  }

  /** `get_llm_for_module_or_default`. */
  function GetLlmForModuleOrDefault(c: ConfigurationModel, name: string): (r: LLMConfiguration)
    ensures forall i :: 0 <= i < |c.modules| && c.modules[i].name == name
                        && (forall j :: 0 <= j < i ==> c.modules[j].name != name)
                        ==> r == ToLlmConfig(c.modules[i].llm)
    ensures (forall i :: 0 <= i < |c.modules| ==> c.modules[i].name != name) ==> r == ToLlmConfig(c.defaultLlm)
  {
    FirstMatchIsFound(c.modules, name, 0);
    match FirstModuleLlm(c.modules, name, 0)
    case Some(llm) => ToLlmConfig(llm)
    case None => ToLlmConfig(c.defaultLlm)
  }

  lemma FirstMatchIsFound(modules: seq<ModuleConfiguration>, name: string, from: nat)
    ensures forall i :: from <= i < |modules| && modules[i].name == name
                        && (forall j :: from <= j < i ==> modules[j].name != name)
                        ==> FirstModuleLlm(modules, name, from) == Some(modules[i].llm)
    ensures (forall i :: from <= i < |modules| ==> modules[i].name != name) ==> FirstModuleLlm(modules, name, from).None?
  {
    forall i | from <= i < |modules| && modules[i].name == name && (forall j :: from <= j < i ==> modules[j].name != name)
      ensures FirstModuleLlm(modules, name, from) == Some(modules[i].llm)
    {
      FirstMatchAt(modules, name, from, i);
    }
    if forall i :: from <= i < |modules| ==> modules[i].name != name {
      NoMatchFrom(modules, name, from);
    }
  }

  lemma {:induction false} FirstMatchAt(modules: seq<ModuleConfiguration>, name: string, from: nat, i: nat)
    requires from <= i < |modules| && modules[i].name == name
    requires forall j :: from <= j < i ==> modules[j].name != name
    ensures FirstModuleLlm(modules, name, from) == Some(modules[i].llm)
    decreases i - from
  {
    if from < i { FirstMatchAt(modules, name, from + 1, i); }
  }

  lemma {:induction false} NoMatchFrom(modules: seq<ModuleConfiguration>, name: string, from: nat)
    requires forall i :: from <= i < |modules| ==> modules[i].name != name
    ensures FirstModuleLlm(modules, name, from).None?
    decreases |modules| - from
  {
    if from < |modules| { NoMatchFrom(modules, name, from + 1); }
  }
}
