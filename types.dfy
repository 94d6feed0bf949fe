/** The records the translator passes around. */
module Types {
  import opened Json

  /** An uploaded file; its size, raw text and line count only feed the UI. */
  datatype UploadedFile = UploadedFile(id: string, name: string, parsedJson: Json)

  datatype Language = Language(code: string, name: string)

  datatype Style = Standard | Formal | Informal | Technical | Simple

  datatype Tone = Neutral | Friendly | Professional | Excited | Confident

  /**
   * The user's translation settings. `creativity` is a number in [0, 1] that is
   * only ever rendered into the prompt and forwarded as the provider's sampling
   * temperature, so it is kept as its decimal text.
   */
  datatype Settings = Settings(
    preserveFormatting: bool,
    preserveCase: bool,
    excludeNumbers: bool,
    style: Style,
    tone: Tone,
    creativity: string,
    customInstructions: string,
    glossary: string,
    chunkSize: nat)

  /** The settings together with the provider model identifier. */
  datatype Config = Config(model: string, settings: Settings)

  datatype TranslationJob = TranslationJob(file: UploadedFile, language: Language)

  datatype TranslationResult = TranslationResult(fileName: string, languageCode: string, translatedJson: Json)

  function StyleName(s: Style): string
  {
    match s
    case Standard => "Standard"
    case Formal => "Formal"
    case Informal => "Informal"
    case Technical => "Technical"
    case Simple => "Simple"
  }

  function ToneName(t: Tone): string
  {
    match t
    case Neutral => "Neutral"
    case Friendly => "Friendly"
    case Professional => "Professional"
    case Excited => "Excited"
    case Confident => "Confident"
  }
}
