/** App.tsx: the session handlers of the single-page UI. The pure record updates (swap, file loading,
    the viewer's page list, the layout flags, the routing of a request) are functions; the component's
    state and the two async handlers that update it step by step are the class `AppState`. */
module App {
  import opened Wrappers
  import opened Types
  import Strings
  import StorageService
  import ModelCouncil
  import GeminiService

  // ---- language swap ----

  /** `handleSwapLanguages`: nothing happens while the source is "auto". */
  function SwapLanguages(s: SessionData): (r: SessionData)
    ensures s.sourceLanguage == "auto" ==> r == s
    ensures s.sourceLanguage != "auto" ==>
      r.sourceLanguage == s.targetLanguage && r.targetLanguage == s.sourceLanguage
    ensures r.(sourceLanguage := s.sourceLanguage, targetLanguage := s.targetLanguage) == s
  {
    if s.sourceLanguage == "auto" then s
    else s.(sourceLanguage := s.targetLanguage, targetLanguage := s.sourceLanguage)
  }

  /** Swapping twice restores the session when neither language is "auto". */
  lemma SwapTwiceRestores(s: SessionData)
    requires s.sourceLanguage != "auto" && s.targetLanguage != "auto"
    ensures SwapLanguages(SwapLanguages(s)) == s
  {
  }

  /** A target of "auto" swapped into the source cannot be swapped back. */
  lemma SwapIntoAutoSticks(s: SessionData)
    requires s.sourceLanguage != "auto" && s.targetLanguage == "auto"
    ensures SwapLanguages(SwapLanguages(s)) == SwapLanguages(s) != s
  {
  }

  // ---- loading a file ----

  const MAX_SIZE_BYTES: nat := 25 * 1024 * 1024
  const MAX_PAGES: nat := 50

  /** `images.slice(0, 50).map(img => img.dataUrl)` */
  function CapPages(images: seq<PdfPageImage>): (r: seq<string>)
    ensures |r| == if |images| < MAX_PAGES then |images| else MAX_PAGES
    ensures forall i :: 0 <= i < |r| ==> r[i] == images[i].dataUrl
  {
    var kept := if |images| < MAX_PAGES then images else images[..MAX_PAGES];
    seq(|kept|, i requires 0 <= i < |kept| => kept[i].dataUrl)
  }

  /** The characters of the JavaScript class `\s`. */
  predicate IsWhitespace(c: char) {
    || c == ' ' || c == '\t' || c == '\n' || c == '\U{B}' || c == '\U{C}' || c == '\r'
    || c == '\U{A0}' || c == '\U{1680}' || ('\U{2000}' <= c <= '\U{200A}')
    || c == '\U{2028}' || c == '\U{2029}' || c == '\U{202F}' || c == '\U{205F}'
    || c == '\U{3000}' || c == '\U{FEFF}'
  }

  /** The characters of the class `[a-zA-Z0-9.,;:!?'"()\-\s]`. */
  predicate IsPrintable(c: char) {
    || ('a' <= c <= 'z') || ('A' <= c <= 'Z') || ('0' <= c <= '9')
    || c in ".,;:!?'\"()-" || IsWhitespace(c)
  }

  /** `text.replace(/\s/g, '').length` */
  function NonWhitespaceCount(text: string): (n: nat)
    ensures n <= |text|
  {
    if text == [] then 0
    else NonWhitespaceCount(text[..|text| - 1]) + (if IsWhitespace(text[|text| - 1]) then 0 else 1)
  }

  /** `(text.match(/[a-zA-Z0-9.,;:!?'"()\-\s]/g) || []).length` */
  function PrintableCount(text: string): (n: nat)
    ensures n <= |text|
  {
    if text == [] then 0
    else PrintableCount(text[..|text| - 1]) + (if IsPrintable(text[|text| - 1]) then 1 else 0)
  }

  /** The scanned-document heuristic: little text, or text of low quality. */
  predicate IsLikelyScanned(text: string) {
    var totalChars := if |text| == 0 then 1 else |text|;
    NonWhitespaceCount(text) < 100 || (PrintableCount(text) as real) / (totalChars as real) < 0.6
  }

  /** The heuristic in integers: the quality ratio is below 0.6 exactly when 10 * printable < 6 * total. */
  lemma ScannedIntegerForm(text: string)
    ensures var totalChars := if |text| == 0 then 1 else |text|;
      IsLikelyScanned(text) <==> NonWhitespaceCount(text) < 100 || 10 * PrintableCount(text) < 6 * totalChars
  {
    var t := if |text| == 0 then 1 else |text|;
    RatioBelow(PrintableCount(text), t);
  }

  lemma RatioBelow(p: nat, t: nat)
    requires t > 0
    ensures (p as real) / (t as real) < 0.6 <==> 10 * p < 6 * t
  {
    QuotientBelow(p as real, t as real, 0.6);
  }

  lemma QuotientBelow(x: real, y: real, c: real)
    requires y > 0.0
    ensures x / y < c <==> x < c * y
  {
  }

  /** Fewer than 100 characters always count as a scan. */
  lemma ShortTextIsScanned(text: string)
    requires |text| < 100
    ensures IsLikelyScanned(text)
  {
  }

  /** At least 100 visible characters, all from the printable class, are read as a text layer. */
  lemma {:induction false} PrintableTextIsNotScanned(text: string)
    requires NonWhitespaceCount(text) >= 100
    requires forall i :: 0 <= i < |text| ==> IsPrintable(text[i])
    ensures !IsLikelyScanned(text)
  {
    PrintableCountFull(text);
    ScannedIntegerForm(text);
  }

  /** All of the text survives the stripping exactly when none of it is whitespace, and none of it
      survives exactly when all of it is whitespace. */
  lemma {:induction false} NonWhitespaceCountExtremes(text: string)
    ensures NonWhitespaceCount(text) == |text| <==> forall i :: 0 <= i < |text| ==> !IsWhitespace(text[i])
    ensures NonWhitespaceCount(text) == 0 <==> forall i :: 0 <= i < |text| ==> IsWhitespace(text[i])
  {
    if text != [] {
      var init := text[..|text| - 1];
      NonWhitespaceCountExtremes(init);
      assert forall i :: 0 <= i < |init| ==> init[i] == text[i];
    }
  }

  /** Every character matches the printable class exactly when the match count is the length. */
  lemma {:induction false} PrintableCountFull(text: string)
    ensures PrintableCount(text) == |text| <==> forall i :: 0 <= i < |text| ==> IsPrintable(text[i])
  {
    if text != [] {
      var init, last := text[..|text| - 1], text[|text| - 1];
      PrintableCountFull(init);
      assert forall i :: 0 <= i < |init| ==> init[i] == text[i];
      assert PrintableCount(text) == PrintableCount(init) + (if IsPrintable(last) then 1 else 0);
    }
  }

  /** No character matches the printable class exactly when the match count is 0. */
  lemma {:induction false} PrintableCountNone(text: string)
    ensures PrintableCount(text) == 0 <==> forall i :: 0 <= i < |text| ==> !IsPrintable(text[i])
  {
    if text != [] {
      var init, last := text[..|text| - 1], text[|text| - 1];
      PrintableCountNone(init);
      assert forall i :: 0 <= i < |init| ==> init[i] == text[i];
      assert PrintableCount(text) == PrintableCount(init) + (if IsPrintable(last) then 1 else 0);
    }
  }

  /** What reading the file yields: the rendered pages and the text layer of a PDF, or the text of
      any other file; None where the read rejects. */
  datatype FileContent =
    | PdfFile(pages: Option<seq<PdfPageImage>>, text: Option<string>)
    | TextFile(text: Option<string>)

  datatype UploadedFile = UploadedFile(size: nat, content: FileContent)

  /** The `alert` calls the handlers make. */
  datatype Alert = FileTooLarge | PageCapNotice | NothingToProcess | TranslateFirst

  /** The session after a PDF whose pages and text were both read. */
  function PdfSession(s: SessionData, images: seq<string>, text: string): (r: SessionData)
    ensures r.isScannedMode == IsLikelyScanned(text) && r.sourceImages == images
    ensures r.sourceText == if IsLikelyScanned(text) then "" else text
    ensures r.(sourceText := s.sourceText, sourceImages := s.sourceImages, isScannedMode := s.isScannedMode) == s
  {
    if IsLikelyScanned(text) then s.(sourceText := "", sourceImages := images, isScannedMode := true)
    else s.(sourceText := text, sourceImages := images, isScannedMode := false)
  }

  datatype Loaded = Loaded(session: SessionData, alerts: seq<Alert>)

  /** `processFile`: the session and the alerts it leaves. */
  function LoadFile(s: SessionData, file: UploadedFile): Loaded {
    if file.size > MAX_SIZE_BYTES then Loaded(s, [FileTooLarge])
    else match file.content
      case PdfFile(pages, text) =>
        if pages.None? then Loaded(s, [])
        else
          var notice := if |pages.value| > MAX_PAGES then [PageCapNotice] else [];
          if text.None? then Loaded(s, notice)
          else Loaded(PdfSession(s, CapPages(pages.value), text.value), notice)
      case TextFile(text) =>
        if text.None? then Loaded(s, [])
        else Loaded(s.(sourceText := text.value, sourceImages := [], isScannedMode := false), [])
  }

  /** Files above 25 MiB are turned away with an alert and no change; 25 MiB itself is accepted. */
  lemma SizeLimit(s: SessionData, file: UploadedFile, text: string)
    ensures file.size > MAX_SIZE_BYTES ==> LoadFile(s, file) == Loaded(s, [FileTooLarge])
    ensures LoadFile(s, UploadedFile(MAX_SIZE_BYTES, TextFile(Some(text)))).session.sourceText == text
  {
  }

  /** A PDF keeps the first min(50, n) pages in order; the text is kept unless the heuristic calls it a
      scan; a plain file drops the pages. Only 50+ page PDFs raise the notice. */
  lemma LoadedSessionShape(s: SessionData, size: nat, pages: seq<PdfPageImage>, text: string)
    requires size <= MAX_SIZE_BYTES
    ensures var r := LoadFile(s, UploadedFile(size, PdfFile(Some(pages), Some(text))));
      && r.session.sourceImages == CapPages(pages)
      && r.session.isScannedMode == IsLikelyScanned(text)
      && r.session.sourceText == (if IsLikelyScanned(text) then "" else text)
      && (r.alerts == [PageCapNotice] <==> |pages| > MAX_PAGES)
    ensures var r := LoadFile(s, UploadedFile(size, TextFile(Some(text))));
      && r.session.sourceImages == [] && !r.session.isScannedMode && r.session.sourceText == text
  {
  }

  /** Loading a file replaces only the source fields: mode, languages and the results of the previous
      document (translation, verdict, analysis) are left as they were. */
  lemma LoadingKeepsResults(s: SessionData, file: UploadedFile)
    ensures var r := LoadFile(s, file).session;
      r.(sourceText := s.sourceText, sourceImages := s.sourceImages, isScannedMode := s.isScannedMode) == s
  {
  }

  // ---- derived state ----

  /** `viewerImages`: the pages numbered 1..n in order. */
  function ViewerImages(images: seq<string>): (r: seq<PdfPageImage>)
    ensures |r| == |images|
    ensures forall i :: 0 <= i < |r| ==> r[i].pageNumber == i + 1 && r[i].dataUrl == images[i]
  {
    seq(|images|, i requires 0 <= i < |images| => PdfPageImage(i + 1, images[i]))
  }

  /** Capping and numbering together: the viewer shows pages 1..min(n, 50) of the rendered PDF. */
  lemma ViewerShowsCappedPages(pages: seq<PdfPageImage>)
    ensures var v := ViewerImages(CapPages(pages));
      && |v| == (if |pages| < MAX_PAGES then |pages| else MAX_PAGES)
      && forall i :: 0 <= i < |v| ==> v[i].pageNumber == i + 1 && v[i].dataUrl == pages[i].dataUrl
  {
  }

  predicate HasResults(s: SessionData) {
    s.translatedText != "" || s.analysisResult.Some? || s.councilVerdict.Some?
  }

  predicate ShowRightPanel(s: SessionData, isProcessing: bool) {
    s.mode == TRANSLATE || HasResults(s) || isProcessing
  }

  /** The right panel is hidden only outside translate mode, with no results and nothing running. */
  lemma RightPanelHiddenExactly(s: SessionData, isProcessing: bool)
    ensures !ShowRightPanel(s, isProcessing) <==>
      && s.mode != TRANSLATE && !isProcessing
      && s.translatedText == "" && s.analysisResult.None? && s.councilVerdict.None?
    ensures !ShowRightPanel(StorageService.DEFAULT_SESSION.(mode := ANALYZE), false)
  {
  }

  // ---- handleProcess ----

  /** The text analyze and summarize work on: the first agent's extraction for a scan already
      translated, the source text otherwise. None when that verdict lists no agent (the access throws). */
  function ReviewText(s: SessionData): (r: Option<string>)
    ensures s.isScannedMode && s.councilVerdict.Some? ==>
      && (r.Some? <==> |s.councilVerdict.value.agentResults| > 0)
      && (r.Some? ==> r.value == s.councilVerdict.value.agentResults[0].extractedText)
    ensures !(s.isScannedMode && s.councilVerdict.Some?) ==> r == Some(s.sourceText)
  {
    if s.isScannedMode && s.councilVerdict.Some? then
      if |s.councilVerdict.value.agentResults| > 0 then Some(s.councilVerdict.value.agentResults[0].extractedText)
      else None
    else Some(s.sourceText)
  }

  /** What `handleProcess` leaves: the session, the alerts raised and the cache store. Every error
      is caught and only shown as a status, so a failure leaves the session as it was. */
  datatype Processed = Processed(session: SessionData, alerts: seq<Alert>, cache: map<string, CouncilVerdict>)

  function Process(s: SessionData, cache: map<string, CouncilVerdict>, env: ModelCouncil.Env,
                   generate: GeminiService.Generate, parse: string -> Option<AnalysisResult>): Processed
  {
    if s.sourceText == "" && |s.sourceImages| == 0 then Processed(s, [NothingToProcess], cache)
    else match s.mode
      case TRANSLATE => Translated(s, cache, env, generate)
      case ANALYZE => Analysed(s, cache, generate, parse)
      case SUMMARIZE => Summarised(s, cache, generate)
  }

  /** Translate mode: the council for pages, the plain translator for text. */
  function Translated(s: SessionData, cache: map<string, CouncilVerdict>, env: ModelCouncil.Env,
                      generate: GeminiService.Generate): Processed
  {
    if |s.sourceImages| > 0 then
      var fin := ModelCouncil.RunFrom(env, s.sourceImages, s.targetLanguage, ModelCouncil.Start(cache), 0);
      var r := ModelCouncil.CouncilResult(env, s.sourceImages, s.targetLanguage, cache);
      if r.Success? then Processed(s.(councilVerdict := Some(r.value), translatedText := r.value.finalTranslation), [], fin.cache)
      else Processed(s, [], fin.cache)
    else
      var r := GeminiService.SimpleTranslate(generate, s.sourceText, s.targetLanguage, s.sourceLanguage);
      if r.Success? then Processed(s.(translatedText := r.value), [], cache)
      else Processed(s, [], cache)
  }

  /** Analyze mode. A missing review text stops it only for a scan with no verdict yet. */
  function Analysed(s: SessionData, cache: map<string, CouncilVerdict>, generate: GeminiService.Generate,
                    parse: string -> Option<AnalysisResult>): Processed
  {
    var text := ReviewText(s);
    if text.None? then Processed(s, [], cache)
    else if text.value == "" && s.isScannedMode && s.councilVerdict.None? then Processed(s, [TranslateFirst], cache)
    else
      var r := GeminiService.AnalyzeLegalRisks(generate, parse, Strings.OrElse(text.value, s.sourceText));
      if r.Success? then Processed(s.(analysisResult := Some(r.value)), [], cache)
      else Processed(s, [], cache)
  }

  /** Summarize mode. A missing review text stops it for any scan. */
  function Summarised(s: SessionData, cache: map<string, CouncilVerdict>, generate: GeminiService.Generate): Processed
  {
    var text := ReviewText(s);
    if text.None? then Processed(s, [], cache)
    else if s.isScannedMode && text.value == "" then Processed(s, [TranslateFirst], cache)
    else Processed(s.(translatedText := GeminiService.SummarizeLegalText(generate, Strings.OrElse(text.value, s.sourceText))), [], cache)
  }

  /** With neither text nor pages there is only the alert. */
  lemma NothingToProcessAlertsOnly(s: SessionData, cache: map<string, CouncilVerdict>, env: ModelCouncil.Env,
                                   generate: GeminiService.Generate, parse: string -> Option<AnalysisResult>)
    ensures var p := Process(s, cache, env, generate, parse);
      p.alerts == [NothingToProcess] <==> s.sourceText == "" && |s.sourceImages| == 0
    ensures s.sourceText == "" && |s.sourceImages| == 0 ==> Process(s, cache, env, generate, parse) == Processed(s, [NothingToProcess], cache)
  {
  }

  /** Processing writes only results: the document, mode and languages are never changed, and only a
      council run touches the cache. */
  lemma ProcessKeepsDocument(s: SessionData, cache: map<string, CouncilVerdict>, env: ModelCouncil.Env,
                             generate: GeminiService.Generate, parse: string -> Option<AnalysisResult>)
    ensures var p := Process(s, cache, env, generate, parse);
      && p.session.(translatedText := s.translatedText, councilVerdict := s.councilVerdict,
                    analysisResult := s.analysisResult) == s
      && (p.cache != cache ==> s.mode == TRANSLATE && |s.sourceImages| > 0)
  {
  }

  /** In translate mode with pages the council runs, and its document becomes the translated text. */
  lemma CouncilTranslationShown(s: SessionData, cache: map<string, CouncilVerdict>, env: ModelCouncil.Env,
                                generate: GeminiService.Generate, parse: string -> Option<AnalysisResult>)
    requires s.mode == TRANSLATE && |s.sourceImages| > 0
    ensures var p := Process(s, cache, env, generate, parse);
      match ModelCouncil.CouncilResult(env, s.sourceImages, s.targetLanguage, cache)
      case Success(v) => p.session.translatedText == v.finalTranslation && p.session.councilVerdict == Some(v)
                         && HasResults(p.session)
      case Failure(_) => p.session == s
  {
  }

  /** A scan that has not been translated cannot be analysed or summarised: the user is asked to translate first. */
  lemma ScanNeedsTranslationFirst(s: SessionData, cache: map<string, CouncilVerdict>, env: ModelCouncil.Env,
                                  generate: GeminiService.Generate, parse: string -> Option<AnalysisResult>)
    requires s.mode != TRANSLATE && s.isScannedMode && s.councilVerdict.None?
    requires s.sourceText == "" && |s.sourceImages| > 0
    ensures Process(s, cache, env, generate, parse) == Processed(s, [TranslateFirst], cache)
  {
  }

  /** Summarising text that is there always writes a non-empty summary: the service never rejects. */
  lemma SummaryAlwaysWritten(s: SessionData, cache: map<string, CouncilVerdict>, env: ModelCouncil.Env,
                             generate: GeminiService.Generate, parse: string -> Option<AnalysisResult>)
    requires s.mode == SUMMARIZE && (s.sourceText != "" || |s.sourceImages| > 0)
    requires ReviewText(s).Some? && !(s.isScannedMode && ReviewText(s).value == "")
    ensures var p := Process(s, cache, env, generate, parse);
      p.alerts == [] && p.session.translatedText != "" && HasResults(p.session)
  {
  }

  // ---- the component ----

  class AppState {
    var session: SessionData
    var isStorageLoaded: bool
    var isProcessing: bool
    var statusMessage: string
    var alerts: seq<Alert>

    constructor ()
      ensures session == StorageService.DEFAULT_SESSION && !isStorageLoaded && !isProcessing
      ensures statusMessage == "" && alerts == []
    {
      session := StorageService.DEFAULT_SESSION;
      isStorageLoaded := false;
      isProcessing := false;
      statusMessage := "";
      alerts := [];
    }

    /** The initial load effect. */
    method LoadStoredSession(db: StorageService.Database, fault: StorageService.Fault)
      modifies this`session, this`isStorageLoaded
      ensures session == StorageService.SessionRead(db.sessions, fault) && isStorageLoaded
    {
      session := db.LoadSession(fault);
      isStorageLoaded := true;
    }

    /** The auto-save effect, once its debounce timer fires: nothing is saved before the load. */
    method AutoSave(db: StorageService.Database, fault: StorageService.Fault)
      modifies db`sessions
      ensures db.sessions == if isStorageLoaded then StorageService.SessionWrite(old(db.sessions), session, fault)
                             else old(db.sessions)
    {
      if !isStorageLoaded {
        return;
      }
      var _ := db.SaveSession(session, fault);
    }

    method HandleSwapLanguages()
      modifies this`session
      ensures session == SwapLanguages(old(session))
    {
      if session.sourceLanguage == "auto" {
        return;
      }
      var currentSource, currentTarget := session.sourceLanguage, session.targetLanguage;
      session := session.(sourceLanguage := currentTarget, targetLanguage := currentSource);
    }

    /** `handleClear`, after the confirmation dialog answered `confirmed`. */
    method HandleClear(db: StorageService.Database, confirmed: bool, fault: StorageService.Fault)
      modifies this`session, db`sessions
      ensures confirmed ==> session == StorageService.DEFAULT_SESSION
                            && db.sessions == StorageService.SessionClear(old(db.sessions), fault)
      ensures !confirmed ==> session == old(session) && db.sessions == old(db.sessions)
    {
      if confirmed {
        session := db.ClearSession(fault);
      }
    }

    method ProcessFile(file: UploadedFile)
      modifies this`session, this`isProcessing, this`statusMessage, this`alerts
      ensures session == LoadFile(old(session), file).session
      ensures alerts == old(alerts) + LoadFile(old(session), file).alerts
      ensures file.size > MAX_SIZE_BYTES ==> isProcessing == old(isProcessing) && statusMessage == old(statusMessage)
      ensures file.size <= MAX_SIZE_BYTES ==> !isProcessing && statusMessage == ""
    {
      if file.size > MAX_SIZE_BYTES {
        alerts := alerts + [FileTooLarge];
        return;
      }
      isProcessing := true;
      statusMessage := "Analyzing document structure...";
      match file.content {
        case PdfFile(pages, text) =>
          statusMessage := "Rasterizing pages for preview...";
          if pages.None? {
            statusMessage := "Error reading file.";
          } else {
            var imageStrings := CapPages(pages.value);
            if |pages.value| > MAX_PAGES {
              alerts := alerts + [PageCapNotice];
            }
            if text.None? {
              statusMessage := "Error reading file.";
            } else if IsLikelyScanned(text.value) {
              statusMessage := "Scanned document detected. Using Visual Processing...";
              session := session.(sourceText := "", sourceImages := imageStrings, isScannedMode := true);
            } else {
              session := session.(sourceText := text.value, sourceImages := imageStrings, isScannedMode := false);
            }
          }
        case TextFile(text) =>
          if text.None? {
            statusMessage := "Error reading file.";
          } else {
            session := session.(sourceText := text.value, sourceImages := [], isScannedMode := false);
          }
      }
      isProcessing := false;
      statusMessage := "";
    }

    method HandleProcess(db: StorageService.Database, env: ModelCouncil.Env,
                         generate: GeminiService.Generate, parse: string -> Option<AnalysisResult>)
      modifies this`session, this`isProcessing, this`statusMessage, this`alerts, db`cache
      ensures var p := Process(old(session), old(db.cache), env, generate, parse);
        && session == p.session && alerts == old(alerts) + p.alerts && db.cache == p.cache
      ensures old(session).sourceText != "" || |old(session).sourceImages| > 0 ==> !isProcessing && statusMessage == ""
      ensures old(session).sourceText == "" && |old(session).sourceImages| == 0 ==>
        isProcessing == old(isProcessing) && statusMessage == old(statusMessage)
    {
      if session.sourceText == "" && |session.sourceImages| == 0 {
        alerts := alerts + [NothingToProcess];
        return;
      }
      isProcessing := true;
      if session.mode == TRANSLATE {
        ProcessTranslate(db, env, generate);
      } else if session.mode == ANALYZE {
        ProcessAnalyze(generate, parse);
      } else {
        ProcessSummarize(generate);
      }
      isProcessing := false;
      statusMessage := "";
    }

    method ProcessTranslate(db: StorageService.Database, env: ModelCouncil.Env, generate: GeminiService.Generate)
      modifies this`session, this`statusMessage, db`cache
      ensures var p := Translated(old(session), old(db.cache), env, generate);
        session == p.session && p.alerts == [] && db.cache == p.cache
    {
      var s := session;
      if |s.sourceImages| > 0 {
        var r, _, _ := ModelCouncil.RunModelCouncil(db, env, s.sourceImages, s.targetLanguage);
        if r.Success? {
          session := session.(councilVerdict := Some(r.value), translatedText := r.value.finalTranslation);
        } else {
          statusMessage := "An error occurred processing the request.";
        }
      } else {
        statusMessage := "Translating to " + s.targetLanguage + "...";
        var r := GeminiService.SimpleTranslate(generate, s.sourceText, s.targetLanguage, s.sourceLanguage);
        if r.Success? {
          session := session.(translatedText := r.value);
        } else {
          statusMessage := "An error occurred processing the request.";
        }
      }
    }

    method ProcessAnalyze(generate: GeminiService.Generate, parse: string -> Option<AnalysisResult>)
      modifies this`session, this`isProcessing, this`statusMessage, this`alerts
      ensures var p := Analysed(old(session), map[], generate, parse);
        session == p.session && alerts == old(alerts) + p.alerts
    {
      var s := session;
      statusMessage := "Scanning document for legal risks...";
      var text := ReviewText(s);
      if text.None? {
        statusMessage := "An error occurred processing the request.";
      } else if text.value == "" && s.isScannedMode && s.councilVerdict.None? {
        alerts := alerts + [TranslateFirst];
        isProcessing := false;
      } else {
        var r := GeminiService.AnalyzeLegalRisks(generate, parse, Strings.OrElse(text.value, s.sourceText));
        if r.Success? {
          session := session.(analysisResult := Some(r.value));
        } else {
          statusMessage := "An error occurred processing the request.";
        }
      }
    }

    method ProcessSummarize(generate: GeminiService.Generate)
      modifies this`session, this`isProcessing, this`statusMessage, this`alerts
      ensures var p := Summarised(old(session), map[], generate);
        session == p.session && alerts == old(alerts) + p.alerts
    {
      var s := session;
      statusMessage := "Distilling key obligations...";
      var text := ReviewText(s);
      if text.None? {
        statusMessage := "An error occurred processing the request.";
      } else if s.isScannedMode && text.value == "" {
        alerts := alerts + [TranslateFirst];
        isProcessing := false;
      } else {
        var summary := GeminiService.SummarizeLegalText(generate, Strings.OrElse(text.value, s.sourceText));
        session := session.(translatedText := summary);
      }
    }
  }
}
