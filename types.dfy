/** The records of types.ts and constants.ts shared by the services and the UI. */
module Types {
  import opened Wrappers

  datatype DocumentMode = TRANSLATE | ANALYZE | SUMMARIZE

  /** Output of one inference tier for one page. */
  datatype AgentResult = AgentResult(
    agentName: string,
    model: string,
    extractedText: string,
    translation: string,
    confidence: int,
    notes: string)

  /** The resolved outcome for one page, or, once aggregated, for the whole document. */
  datatype CouncilVerdict = CouncilVerdict(
    finalTranslation: string,
    agentResults: seq<AgentResult>,
    judgeReasoning: string,
    confidenceScore: int)

  datatype RiskLevel = LOW | MEDIUM | HIGH

  datatype Clause = Clause(original: string, explanation: string, riskLevel: RiskLevel)

  /** The parsed risk analysis; every field is optional, as in the source's interface. */
  datatype AnalysisResult = AnalysisResult(
    summary: Option<string>,
    risks: Option<seq<string>>,
    clauses: Option<seq<Clause>>)

  /** The parse of the JSON text "{}": an object with no fields. */
  const EMPTY_ANALYSIS := AnalysisResult(None, None, None)

  /** The persisted editing session (the timestamp field is not modelled). */
  datatype SessionData = SessionData(
    mode: DocumentMode,
    isScannedMode: bool,
    sourceText: string,
    sourceImages: seq<string>,
    translatedText: string,
    councilVerdict: Option<CouncilVerdict>,
    analysisResult: Option<AnalysisResult>,
    targetLanguage: string,
    sourceLanguage: string)

  datatype PdfPageImage = PdfPageImage(pageNumber: int, dataUrl: string)

  datatype LanguageOption = LanguageOption(code: string, name: string, nativeName: string, flag: string)

  /** A model reply after `response.text || "{}"` and `JSON.parse`: an empty text parses as `{}`,
      a text that is not JSON makes the parse throw. */
  datatype Reply<P> = EmptyText | Json(payload: P) | Malformed

  const MODEL_EXPERT := "gemini-3-pro-preview"
  const MODEL_PERFORMANCE := "gemini-3-flash-preview"
}
