/** The two model roles of the pipeline and the model configuration behind each. */
module Config {

  /** `Config.Model.DEFAULT` (general tasks) and `Config.Model.REPORT_WRITER`
      (complex tasks). */
  datatype Role = Default | ReportWriter

  /** A model name and its sampling temperature; the only provider is Groq. */
  datatype ModelConfig = ModelConfig(name: string, temperature: real)

  const Llama33: ModelConfig := ModelConfig("llama-3.3-70b-versatile", 0.1)
  const DeepseekR1: ModelConfig := ModelConfig("deepseek-r1-distill-llama-70b", 0.2)

  function ConfigOf(role: Role): ModelConfig {
    match role
    case Default => Llama33
    case ReportWriter => DeepseekR1
  }

  /** The two roles are served by different models. */
  lemma RolesDistinct()
    ensures ConfigOf(Default) != ConfigOf(ReportWriter)
    ensures ConfigOf(Default).name != ConfigOf(ReportWriter).name
  {
  }
}
