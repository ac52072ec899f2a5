/** The single-call services: summary, risk analysis and plain-text translation. Each sends one
    request through the retry executor; they differ in how a reply or a rejection reaches the caller. */
module GeminiService {
  import opened Wrappers
  import opened Types
  import Strings
  import opened Retry

  /** What a prompt carries; its wording is not modelled. */
  datatype Prompt =
    | SummaryPrompt(text: string)
    | AnalysisPrompt(text: string)
    | TranslateInto(text: string, targetLang: string)
    | TranslateFrom(text: string, sourceLang: string, targetLang: string)

  datatype Request = Request(model: string, prompt: Prompt, jsonResponse: bool)

  /** The model service: attempt k of a request resolves with the response text ("" when the
      response carries none) or rejects with an error. */
  type Generate = (Request, nat) -> Attempt<string>

  /** The retried request, as `withRetry(() => generateContent(...))` with its defaults. */
  function Send(generate: Generate, req: Request): Attempt<string> {
    Retry.Retry((k: nat) => generate(req, k), 0, DEFAULT_RETRIES, RETRY_DELAY_MS).result
  }

  // ---- summarizeLegalText ----

  const SUMMARY_EMPTY := "Could not generate summary."
  const SUMMARY_ERROR := "Error generating summary."

  function SummaryRequest(text: string): Request {
    Request(MODEL_PERFORMANCE, SummaryPrompt(text), false)
  }

  /** The summary never rejects: an empty reply and any error both become fixed messages. */
  function SummarizeLegalText(generate: Generate, text: string): (r: string)
    ensures r != ""
    ensures var sent := Send(generate, SummaryRequest(text));
      && (sent.Fail? ==> r == SUMMARY_ERROR)
      && (sent.Ok? ==> r == (if sent.value == "" then SUMMARY_EMPTY else sent.value))
  {
    match Send(generate, SummaryRequest(text))
    case Fail(_) => SUMMARY_ERROR
    case Ok(t) => Strings.OrElse(t, SUMMARY_EMPTY)
  }

  /** After up to three retryable failures the first reply is the summary. */
  lemma SummaryIsFirstReply(generate: Generate, text: string, n: nat, reply: string)
    requires n <= DEFAULT_RETRIES && reply != ""
    requires forall j :: 0 <= j < n ==> Transient(generate(SummaryRequest(text), j))
    requires generate(SummaryRequest(text), n) == Ok(reply)
    ensures SummarizeLegalText(generate, text) == reply
  {
    RetryReturnsFirstSuccess((k: nat) => generate(SummaryRequest(text), k), DEFAULT_RETRIES, RETRY_DELAY_MS, n);
  }

  /** Four retryable failures in a row, or one that is not retryable, give the error message. */
  lemma SummaryErrorMessage(generate: Generate, text: string)
    requires || (forall j :: 0 <= j < 4 ==> Transient(generate(SummaryRequest(text), j)))
             || (generate(SummaryRequest(text), 0).Fail? && !IsRetryable(generate(SummaryRequest(text), 0).error))
    ensures SummarizeLegalText(generate, text) == SUMMARY_ERROR
  {
    var call := (k: nat) => generate(SummaryRequest(text), k);
    if forall j :: 0 <= j < 4 ==> Transient(call(j)) {
      DefaultPolicyExhausted(call);
    } else {
      NonRetryableRethrown(call, DEFAULT_RETRIES, RETRY_DELAY_MS);
    }
  }

  // ---- analyzeLegalRisks ----

  const ANALYSIS_FAILED := "Failed to analyze document."

  function AnalysisRequest(text: string): Request {
    Request(MODEL_EXPERT, AnalysisPrompt(text), true)
  }

  /** The reply's JSON is parsed by `parse` (None: malformed); an empty reply is read as `{}`.
      Every failure, of the request or of the parse, is replaced by one fixed error. */
  function AnalyzeLegalRisks(generate: Generate, parse: string -> Option<AnalysisResult>, text: string)
    : (r: Result<AnalysisResult, string>)
    ensures r.Failure? ==> r.error == ANALYSIS_FAILED
    ensures var sent := Send(generate, AnalysisRequest(text));
      && (r.Success? <==> sent.Ok? && (sent.value == "" || parse(sent.value).Some?))
      && (sent == Ok("") ==> r == Success(EMPTY_ANALYSIS))
      && (sent.Ok? && sent.value != "" && parse(sent.value).Some? ==> r == Success(parse(sent.value).value))
  {
    match Send(generate, AnalysisRequest(text))
    case Fail(_) => Failure(ANALYSIS_FAILED)
    case Ok(t) =>
      if t == "" then Success(EMPTY_ANALYSIS)
      else match parse(t)
        case None => Failure(ANALYSIS_FAILED)
        case Some(a) => Success(a)
  }

  /** A request that is rejected for good always surfaces as the one analysis error. */
  lemma AnalysisRejected(generate: Generate, parse: string -> Option<AnalysisResult>, text: string)
    requires generate(AnalysisRequest(text), 0).Fail? && !IsRetryable(generate(AnalysisRequest(text), 0).error)
    ensures AnalyzeLegalRisks(generate, parse, text) == Failure(ANALYSIS_FAILED)
  {
    NonRetryableRethrown((k: nat) => generate(AnalysisRequest(text), k), DEFAULT_RETRIES, RETRY_DELAY_MS);
  }

  // ---- simpleTranslate ----

  /** The source language is named in the prompt only when it is given and is not "auto". */
  function TranslationPrompt(text: string, targetLang: string, sourceLang: string): (p: Prompt)
    ensures p.TranslateFrom? <==> sourceLang != "" && sourceLang != "auto"
    ensures p.TranslateInto? || p.TranslateFrom?
    ensures p.text == text && p.targetLang == targetLang
    ensures p.TranslateFrom? ==> p.sourceLang == sourceLang
  {
    if sourceLang != "" && sourceLang != "auto" then TranslateFrom(text, sourceLang, targetLang)
    else TranslateInto(text, targetLang)
  }

  function TranslateRequest(text: string, targetLang: string, sourceLang: string): Request {
    Request(MODEL_PERFORMANCE, TranslationPrompt(text, targetLang, sourceLang), false)
  }

  /** The fallback translator has no catch: the executor's rejection reaches the caller unchanged. */
  function SimpleTranslate(generate: Generate, text: string, targetLang: string, sourceLang: string)
    : (r: Result<string, ApiError>)
    ensures var sent := Send(generate, TranslateRequest(text, targetLang, sourceLang));
      && (r.Success? <==> sent.Ok?)
      && (r.Success? ==> r.value == sent.value)
      && (r.Failure? ==> sent == Fail(r.error))
  {
    match Send(generate, TranslateRequest(text, targetLang, sourceLang))
    case Fail(e) => Failure(e)
    case Ok(t) => Success(Strings.OrElse(t, ""))
  }

  /** A rejected translation carries either a non-retryable error, from the first attempt that
      was not a transient failure (every earlier attempt having been one), or the fourth of four
      retryable errors. */
  lemma TranslationRejection(generate: Generate, text: string, targetLang: string, sourceLang: string)
    ensures var r := SimpleTranslate(generate, text, targetLang, sourceLang);
      var call := (k: nat) => generate(TranslateRequest(text, targetLang, sourceLang), k);
      r.Failure? ==>
        || (exists m :: 0 <= m < 4 && call(m) == Fail(r.error) && !IsRetryable(r.error)
              && forall j :: 0 <= j < m ==> Transient(call(j)))
        || (r.error == call(3).error && forall j :: 0 <= j < 4 ==> Transient(call(j)))
  {
    var call := (k: nat) => generate(TranslateRequest(text, targetLang, sourceLang), k);
    RejectionCause(call, DEFAULT_RETRIES, RETRY_DELAY_MS);
  }
}
