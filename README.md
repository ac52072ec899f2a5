# JustEase legal translator: the council pipeline and its surroundings, in Dafny

JustEase is a browser application that translates, analyses and summarises legal documents
with a hosted language model. This project models its core:

- **The Model Council** (`ModelCouncil`, `ModelCouncilProofs`). Pages are processed one at a time.
  Each page is hashed (SHA-256 of its bytes, as lowercase hex) and looked up in a content cache
  under `<hash>_<targetLanguage>`. On a miss, the cheap Flash tier is asked first. If Flash flags
  the page as complex, the page is escalated to the Pro tier and then to the Judge. The page's
  verdict is cached. At the end the verdicts are assembled into one document: page sections in
  order, per-page reasoning, and a rounded mean confidence. The pure functions `Step`/`RunFrom`
  specify the loop; the imperative `RunModelCouncil` is proved to end in the state they describe.
- **The retry executor** (`Retry`). `withRetry` retries only 503s, 429s and "fetch failed"
  failures. It tries at most `retries + 1` times, and the delay doubles from 2000 ms.
  `services/geminiService.ts` has an identical copy, and both are modelled by this one.
- **The session and cache store** (`StorageService`). It is a class holding the two IndexedDB
  object stores as maps. Browser failures become a `Fault` argument, and the model shows which
  of them are swallowed and which escape.
- **The page hash** (`PdfService`). The byte-filling loop works over an array. The hex encoding
  is proved injective, with a decoder that undoes it.
- **The single-call services** (`GeminiService`): summary, risk analysis and plain translation.
  They differ in how a rejection reaches the caller.
- **The application shell** (`App`). This covers file loading (the size limit, the page cap and
  the scanned-document heuristic), the swap of languages, what the right panel shows, and the
  process handler in each mode. Each handler is a method of the `AppState` class and is proved
  equal to a pure function of the old state.
- **The language picker** (`LanguageSelector`). The list, lookup and filter are functions.
  Keyboard, click and hover handling form a `Selector` class whose invariant keeps the highlight
  on an entry of the filtered list.

The language model, `atob`, SHA-256, `toLowerCase` and `JSON.parse` are parameters of the model
(function values). Its only non-determinism is in those parameters: how each attempt of each
request resolves, and what each store call runs into.

Where the written design of the system and the code disagree, this model follows the code:

- The design says a malformed tier reply degrades to empty defaults. In the code, `JSON.parse`
  throws on it and the whole run rejects (`ModelCouncil.Error.ParseFailure`). Only an empty
  reply becomes `{}`.
- The design says a failed cache write is swallowed. In the code, a failure before the
  transaction is swallowed, but a transaction error rejects the promise that `saveCachedResult`
  returns without awaiting. That rejection ends the run (`ModelCouncilProofs.StepTransactionErrorEscapes`).

## Model

| member | source | states |
|---|---|---|
| Retry.WithRetry | services/modelCouncilService.ts:16-27 | the executor loop ends in exactly the outcome of the recursive definition: same result, same number of calls, same waits |
| Retry.RetryStopsAtFirstDecisive | services/modelCouncilService.ts:16-27 | between 1 and retries+1 calls are made; every call before the last failed retryably; the last call's outcome is returned; if the budget was not used up, that outcome is not a retryable failure; the k-th wait is delay·2^k |
| Retry.RetryReturnsFirstSuccess | services/modelCouncilService.ts:18-25 | after n ≤ retries retryable failures, the first success is returned after n+1 calls |
| Retry.NonRetryableRethrown | services/modelCouncilService.ts:20-21 | a failure that is not 503, 429 or "fetch failed" is rethrown after one call, with no wait |
| Retry.DefaultPolicy | services/modelCouncilService.ts:11-16 | with the defaults there are at most 4 calls, and the waits are a prefix of 2000, 4000, 8000 ms |
| Retry.DefaultPolicyExhausted | services/modelCouncilService.ts:16-27 | four retryable failures reject with the fourth, after waits of 2000, 4000 and 8000 ms |
| Retry.RejectionReachesCaller | services/modelCouncilService.ts:21 | a rejection reaches the caller only when it is not retryable or all retries+1 calls were spent |
| Retry.RejectionCause | services/modelCouncilService.ts:16-27 | a rejection is either the first call that was not a transient failure, every earlier call having been one, with a non-retryable error, or the last of retries+1 transient failures |
| Retry.TwoOutagesThenSuccess | services/modelCouncilService.ts:16-27 | two 503s and then a reply: the reply, three calls, waits of 2000 and 4000 ms |
| ModelCouncil.IndexOf | services/modelCouncilService.ts:29 | the index returned is the first occurrence of the separator; None means it does not occur |
| ModelCouncil.CleanBase64StripsHeader | services/modelCouncilService.ts:29 | a data URL loses everything up to its comma (falling back to the whole URL when the payload is empty); text with no comma is kept |
| ModelCouncil.FlashResult | services/modelCouncilService.ts:79-90 | Flash's result has confidence 85 and the performance model; missing or empty fields become "" (notes: the fixed completion note); the page is flagged complex exactly when the reply says isComplex: true |
| ModelCouncil.ProResult | services/modelCouncilService.ts:142-152 | Pro's result has confidence 95 and the expert model; missing fields become "" |
| ModelCouncil.JudgeVerdict | services/modelCouncilService.ts:205-213 | the verdict cites Flash and Pro in that order; confidence is 90 exactly when the score is missing, 0 or 90, and otherwise it is the Judge's score |
| ModelCouncil.Sections | services/modelCouncilService.ts:282-284 | one section per page, in page order, each headed "--- Page k of N ---" and followed by that page's translation |
| ModelCouncil.ReasoningLines | services/modelCouncilService.ts:285-287 | one "[Page k]: …" line per page, in page order |
| ModelCouncil.RunVerdictCount | services/modelCouncilService.ts:226-276 | the loop only appends verdicts; a run without error has exactly one verdict per page |
| ModelCouncil.CallTier | services/modelCouncilService.ts:79-80 | one tier call is the retried request followed by the parse: a rethrown failure or an unparseable reply is an error |
| ModelCouncil.ConsultTiers | services/modelCouncilService.ts:245-264 | the imperative consultation yields the verdict, counters and statuses of the specification `Consult` |
| ModelCouncil.ProcessPage | services/modelCouncilService.ts:228-270 | one iteration leaves the cache store, verdicts, counters and statuses of the specification `Step` |
| ModelCouncil.RunModelCouncil | services/modelCouncilService.ts:217-296 | the loop leaves the cache store, the tier counters and the status log that `RunFrom` describes; it resolves to the first error, or to the document assembled from the page verdicts |
| ModelCouncilProofs.CacheKeySeparates | services/modelCouncilService.ts:233-234 | because page hashes are hex, two cache keys are equal exactly when both the hash and the language are equal |
| ModelCouncilProofs.StepCacheHit | services/modelCouncilService.ts:235-241 | on a cache hit, the cached verdict is appended unchanged; no tier is called and nothing is written |
| ModelCouncilProofs.StepFastAccept | services/modelCouncilService.ts:256-263 | an unflagged page costs one Flash call; its verdict is Flash's translation at confidence 90, cites Flash twice, and is cached under the page's key |
| ModelCouncilProofs.StepEscalated | services/modelCouncilService.ts:250-255 | a flagged page costs one Flash, one Pro and one Judge call; the Judge's verdict is appended and cached |
| ModelCouncilProofs.StepSaveFailureSwallowed | services/modelCouncilService.ts:267 | a cache write that fails before its transaction leaves the cache as it was, and the page still contributes its verdict |
| ModelCouncilProofs.StepTransactionErrorEscapes | services/modelCouncilService.ts:267 | a cache transaction error ends the run without the page's verdict |
| ModelCouncilProofs.StepOnMiss | services/modelCouncilService.ts:244-270 | on a miss, the counters are the consultation's; an error stops the run; a verdict is written and then appended unless the write's transaction failed |
| ModelCouncilProofs.RunCounters | services/modelCouncilService.ts:226-276 | over a run, Flash is called at most once per page, Pro never more often than Flash, and the Judge once per Pro call (once more Pro than Judge only when the run failed in between) |
| ModelCouncilProofs.StepCounters | services/modelCouncilService.ts:244-264 | one page calls each tier at most once, Pro only after Flash and the Judge only after Pro |
| ModelCouncilProofs.RunCachesEveryPage | services/modelCouncilService.ts:233-269 | with a cache that never fails, a successful run leaves every page's verdict in the cache under that page's key |
| ModelCouncilProofs.RunServedFromCache | services/modelCouncilService.ts:235-241 | when every page's key is cached, the run succeeds without calling any tier or writing, and returns the cached verdicts in page order |
| ModelCouncilProofs.RepeatRunServedFromCache | services/modelCouncilService.ts:232-269 | running the same pages in the same language again, over the cache the first run left, calls no tier, changes nothing, and resolves to the same document |
| ModelCouncilProofs.DocumentPagesInOrder | services/modelCouncilService.ts:282-284 | in the assembled document, page i's section (marker and translation) appears intact and ends before page k's begins, for every i < k |
| ModelCouncilProofs.RoundedMeanIsNearest | services/modelCouncilService.ts:288-290 | the document confidence is the integer nearest the mean page confidence, with halves rounded up |
| ModelCouncilProofs.ConfidenceSumBounds | services/modelCouncilService.ts:289 | the sum of n page confidences lies between n·lo and n·hi |
| ModelCouncilProofs.DocumentConfidenceInRange | services/modelCouncilService.ts:288-290 | the document confidence stays within any range that all page confidences share |
| ModelCouncilProofs.AggregateExamples | services/modelCouncilService.ts:281-292 | page confidences 90, 100 and 80 give 90; 85 and 90 give 88; the document cites the first page's agents |
| StorageService.MergeStoredRoundTrip | services/storageService.ts:78-81 | a session stored with every field loads back unchanged: the stored fields override all defaults |
| StorageService.MergeFieldByField | services/storageService.ts:80-81 | a stored object with no fields loads as the defaults; a stored source language alone overrides only that field |
| StorageService.CacheReadAfterWrite | services/storageService.ts:108-138 | a lookup returns what the last committed write stored under the same key |
| StorageService.CacheWriteFrame | services/storageService.ts:125-138 | a write changes only its own key; a failed write changes nothing |
| StorageService.CacheReadFaultIsMiss | services/storageService.ts:119-122 | a failing lookup is a miss, never an error |
| StorageService.SessionRoundTrip | services/storageService.ts:47-86 | a session saved and loaded without faults comes back as it was saved |
| StorageService.LoadAfterClear | services/storageService.ts:88-104 | after a committed clear, a load gives the defaults |
| StorageService.Database.constructor | services/storageService.ts:5-6 | both stores start empty |
| StorageService.Database.SaveSession | services/storageService.ts:47-63 | a committed save stores the session under the single session key; the promise rejects exactly on a transaction error |
| StorageService.Database.LoadSession | services/storageService.ts:65-86 | the load never rejects: the defaults on any failure or when nothing is stored, otherwise the stored fields over the defaults |
| StorageService.Database.ClearSession | services/storageService.ts:88-104 | only the session key is deleted, and only on commit; the result is always the defaults |
| StorageService.Database.GetCachedResult | services/storageService.ts:108-123 | a hit exactly when nothing fails and the key is present, and then the stored verdict |
| StorageService.Database.SaveCachedResult | services/storageService.ts:125-138 | the cache gains the key only on commit; the promise rejects exactly on a transaction error |
| PdfService.CharCodes | services/pdfService.ts:5-8 | one byte per character, each byte the character's code modulo 256 |
| PdfService.CharCodesExact | services/pdfService.ts:4-7 | on the output of `atob`, where every code is below 256, each byte equals the character's code |
| PdfService.DecodeBytes | services/pdfService.ts:5-8 | the loop fills a fresh array with exactly those bytes |
| PdfService.HexByteIsTwoDigits | services/pdfService.ts:11 | every byte becomes two lowercase hex digits, high nibble first, zero-padded below 16 |
| PdfService.HexEncodeShape | services/pdfService.ts:10-11 | the hash string has two hex digits per digest byte, byte i at positions 2i and 2i+1 |
| PdfService.HexRoundTrip | services/pdfService.ts:10-11 | reading the hash string back gives the digest |
| PdfService.HexEncodeInjective | services/pdfService.ts:10-11 | two digests give the same hash string exactly when they are equal |
| PdfService.Sha256HashLength | services/pdfService.ts:9-11 | a SHA-256 digest gives a 64-character hash |
| PdfService.ImageHashIsHex | services/pdfService.ts:3-12 | a page hash holds only the characters 0-9 and a-f |
| PdfService.ComputeImageHash | services/pdfService.ts:3-12 | the imperative hash equals the functional one, so a page always hashes the same |
| GeminiService.SummarizeLegalText | services/geminiService.ts:23-37 | the summary never rejects and is never empty: the reply, a fixed message for an empty reply, and another for any error |
| GeminiService.SummaryIsFirstReply | services/geminiService.ts:27-32 | after up to three retryable failures, the first non-empty reply is the summary |
| GeminiService.SummaryErrorMessage | services/geminiService.ts:33-36 | four retryable failures, or one that is not retryable, give the error message |
| GeminiService.AnalyzeLegalRisks | services/geminiService.ts:39-87 | the analysis succeeds exactly when the request succeeds and its reply is empty or parses; an empty reply is read as `{}`; every failure is replaced by the one fixed error |
| GeminiService.AnalysisRejected | services/geminiService.ts:83-86 | a request that is refused outright surfaces as the fixed analysis error |
| GeminiService.TranslationPrompt | services/geminiService.ts:92-96 | the prompt names the source language exactly when it is given and is not "auto" |
| GeminiService.SimpleTranslate | services/geminiService.ts:90-103 | the translator has no catch: it succeeds with the reply exactly when the retried request succeeds, and otherwise passes the executor's error on unchanged |
| GeminiService.TranslationRejection | services/geminiService.ts:98-101 | a rejected translation carries either a non-retryable error, from the first attempt that was not a transient failure (every earlier attempt having been one), or the fourth of four retryable errors |
| App.SwapLanguages | App.tsx:68-84 | with source "auto" nothing changes; otherwise the two languages are exchanged; no other field changes |
| App.SwapTwiceRestores | App.tsx:68-84 | swapping twice restores the session when neither language is "auto" |
| App.SwapIntoAutoSticks | App.tsx:73-76 | a target of "auto" swapped into the source cannot be swapped back |
| App.CapPages | App.tsx:123 | the first min(n, 50) rendered pages are kept, in order |
| App.NonWhitespaceCount | App.tsx:131 | the length of the whitespace-stripped text is at most the text's length (a bound only; what the count means is stated by `NonWhitespaceCountExtremes`) |
| App.NonWhitespaceCountExtremes | App.tsx:131 | the stripped text is as long as the text exactly when no character is whitespace, and empty exactly when every character is |
| App.PrintableCount | App.tsx:136 | the number of matches of the printable class is at most the text's length (a bound only; what the count means is stated by `PrintableCountFull` and `PrintableCountNone`) |
| App.PrintableCountFull | App.tsx:136 | the match count equals the length exactly when every character is printable |
| App.PrintableCountNone | App.tsx:136 | the match count is 0 exactly when no character is printable |
| App.ScannedIntegerForm | App.tsx:136-141 | the heuristic says "scanned" exactly when fewer than 100 non-whitespace characters remain or 10·printable < 6·max(length, 1) |
| App.ShortTextIsScanned | App.tsx:141 | any text shorter than 100 characters is treated as a scan |
| App.PrintableTextIsNotScanned | App.tsx:131-141 | text with at least 100 visible characters, all from the printable class, is read as a text layer |
| App.PdfSession | App.tsx:143-158 | a PDF sets the pages and the scan flag, clears the text exactly for a scan, and changes no other field |
| App.SizeLimit | App.tsx:109-113 | a file over 25 MiB gives only the "too large" alert; a file of exactly 25 MiB is accepted |
| App.LoadedSessionShape | App.tsx:119-168 | a PDF keeps the capped pages and, unless it is a scan, its text; the page-cap alert is raised exactly for more than 50 pages; a text file replaces the text and drops the pages |
| App.LoadingKeepsResults | App.tsx:143-168 | loading a file changes only the source fields: the mode, the languages and the results of the previous document are kept |
| App.ViewerImages | App.tsx:305-308 | the viewer numbers the pages 1..n in order |
| App.ViewerShowsCappedPages | App.tsx:305-308 | the viewer holds exactly min(n, 50) entries, entry i being page i+1 of the rendered PDF |
| App.RightPanelHiddenExactly | App.tsx:30-31 | the right panel is hidden exactly outside translate mode, when there are no results and nothing is running |
| App.ReviewText | App.tsx:222-224 | a scan with a verdict is reviewed through its first agent's extraction (no text when the verdict has no agents); anything else through its source text |
| App.NothingToProcessAlertsOnly | App.tsx:188-191 | with neither text nor pages, processing raises only the alert and changes nothing |
| App.ProcessKeepsDocument | App.tsx:187-263 | processing writes only results: the document, the mode and the languages stay, and only a council run touches the cache |
| App.CouncilTranslationShown | App.tsx:196-208 | in translate mode with pages, a successful council run sets the verdict and shows its document as the translated text |
| App.ScanNeedsTranslationFirst | App.tsx:220-251 | a scan without a verdict cannot be analysed or summarised: the user is asked to translate first |
| App.SummaryAlwaysWritten | App.tsx:241-254 | summarising available text always writes a non-empty summary |
| App.AppState.constructor | App.tsx:21-24 | the app starts on the default session, not yet loaded, not processing |
| App.AppState.LoadStoredSession | App.tsx:34-41 | the initial load installs the stored session, or the defaults, and marks storage as loaded |
| App.AppState.AutoSave | App.tsx:44-50 | nothing is saved before the load; after it, the current session is saved |
| App.AppState.HandleSwapLanguages | App.tsx:68-84 | the session becomes its swap |
| App.AppState.HandleClear | App.tsx:298-303 | once confirmed, the stored session is cleared and the defaults shown; when declined, nothing changes |
| App.AppState.ProcessFile | App.tsx:107-177 | the session and alerts become those of `LoadFile`; an accepted file ends with processing off and an empty status |
| App.AppState.HandleProcess | App.tsx:187-263 | the session, alerts and cache become those of `Process`; every run that starts ends with processing off and an empty status; with nothing to process, the processing flag and the status stay as they were |
| App.AppState.ProcessTranslate | App.tsx:196-218 | translate mode leaves the state of `Translated` |
| App.AppState.ProcessAnalyze | App.tsx:220-240 | analyze mode leaves the state of `Analysed` |
| App.AppState.ProcessSummarize | App.tsx:241-255 | summarize mode leaves the state of `Summarised` |
| LanguageSelector.Languages | components/LanguageSelector.tsx:23 | auto-detect is offered first, and only when the caller asks for it |
| LanguageSelector.SupportedCodes | constants.ts:10-22 | the eleven supported languages have distinct codes, none of which is "auto" |
| LanguageSelector.LanguageCodes | constants.ts:3-22 | 12 or 11 entries with distinct codes; "auto" is among them exactly when it was asked for |
| LanguageSelector.FirstWithCode | components/LanguageSelector.tsx:25 | the index returned is the first entry with the code; None means no entry has it |
| LanguageSelector.SelectedLang | components/LanguageSelector.tsx:25 | the button shows an entry of the list: the one with the selected code, or the first entry when none has it |
| LanguageSelector.UnknownCodeShowsFirst | components/LanguageSelector.tsx:25 | a stored target of "auto", or any unknown code, shows as Hindi |
| LanguageSelector.Filtered | components/LanguageSelector.tsx:27-30 | the filtered list holds exactly the entries whose name or native name contains the query, ignoring case |
| LanguageSelector.FilteredIsSubsequence | components/LanguageSelector.tsx:27-30 | the filter keeps the list's order |
| LanguageSelector.EmptyQueryKeepsAll | components/LanguageSelector.tsx:27-30 | an empty query shows every entry |
| LanguageSelector.ArrowDownIndex | components/LanguageSelector.tsx:81 | ArrowDown moves one entry down and stops on the last; on an empty list the highlight is -1 |
| LanguageSelector.ArrowUpIndex | components/LanguageSelector.tsx:85 | ArrowUp moves one entry up and stops on the first |
| LanguageSelector.ArrowDownVisitsEvery | components/LanguageSelector.tsx:79-82 | pressed k times from the top, ArrowDown handled once per key lands on entry min(k, n-1), so no entry is skipped |
| LanguageSelector.InputArrowsSkipEntries | components/LanguageSelector.tsx:102-134 | as wired, with three or more entries, an arrow key typed in the search box moves the highlight two entries at a time |
| LanguageSelector.Selector.constructor | components/LanguageSelector.tsx:15-23 | the list starts closed, with an empty query and the highlight on the first entry, over the languages the caller asked for |
| LanguageSelector.Selector.Close | components/LanguageSelector.tsx:48-51 | closing resets the query and the highlight |
| LanguageSelector.Selector.KeyDown | components/LanguageSelector.tsx:69-99 | a closed list opens on Enter, Space or ArrowDown unless it is disabled; arrows move the highlight within the list; Enter reports the highlighted code and closes; Escape closes; the highlight always stays on an entry |
| LanguageSelector.Selector.Toggle | components/LanguageSelector.tsx:106 | the button flips the list unless it is disabled; opening keeps the query and the highlight as they were, closing resets them to "" and 0 |
| LanguageSelector.Selector.SetQuery | components/LanguageSelector.tsx:133 | typing sets the query, and a changed query moves the highlight to the top |
| LanguageSelector.Selector.Hover | components/LanguageSelector.tsx:156 | hovering an option highlights it |
| LanguageSelector.Selector.Pick | components/LanguageSelector.tsx:152-155 | clicking an option reports its code and closes the list |

## Left out

- The language model itself: prompt wording, image attachment, the response schema, the thinking budget, `getClient` and the API key. Each request is an oracle `(request, attempt) -> outcome`.
- The retry sleeps are recorded as waits; no time passes. The 500 ms cooldown between pages, the 2 s auto-save debounce and the clipboard reset timer are not modelled.
- `JSON.parse` is an oracle, or a reply datatype in the council, that either gives a record or fails; the record's fields are not checked against the schema.
- IndexedDB is two maps, and each call's outcome is a `Fault` argument; opening the database, version upgrades and concurrent tabs are not modelled.
- SHA-256 and `atob` are opaque function parameters; only the byte loop and the hex encoding around them are modelled.
- `convertPdfToImages`, `extractTextFromPdf`, `file.text()` and the PDF worker are inputs; a failure among them is a `None` field of the loaded file.
- `toLowerCase` is an abstract parameter; no Unicode case mapping is modelled. String lengths count Dafny characters, not UTF-16 code units.
- The timestamp of a session (`Date.now()`) is not modelled.
- `BATCH_SIZE` is 1 in the source, so the model processes one page per iteration and does not generalise to larger batches.
- `onStatusUpdate` messages are a `Status` log; their emoji and wording are not modelled.
- ModelCouncil.FlashResult: `isComplex` is an optional boolean, so a truthy non-boolean JSON value (such as `1` or `"yes"`) is not modelled; likewise a text field holding a non-string value.
- ModelCouncil.JudgeVerdict: confidence scores are integers; a fractional score, and the rounding of a fractional mean that it would cause, are not modelled.
- App.AppState.ProcessFile: the intermediate status messages ("Rasterizing pages…", "Scanned document detected…") are overwritten by the `finally` and are not kept in the model.
- App.AppState.HandleProcess: when an error is caught, the status "An error occurred…" is replaced at once by the `finally`, so only the final empty status is stated.
- Rendering: the JSX, `DocumentViewer`, `AnalysisPanel` and `index.tsx`, and the scroll, focus and click-outside effects of the picker.
- The .docx export, `file-saver`, the clipboard and console logging are output only.
- The trivial setters (`handleModeChange`, `handleTextChange`, the language setters), drag and drop and `handleFileUpload` only forward to the state or to `processFile`.
- LanguageSelector.Selector.KeyDown: it models one run of the handler per key. The double run from the search box is stated separately, by `InputArrowDownIndex` and `InputArrowUpIndex`.

## Findings

| source | as written | input that shows it | evidently intended | confidence | as-written member | corrected member |
|---|---|---|---|---|---|---|
| components/LanguageSelector.tsx:134 | `handleKeyDown` is attached to both the search input and its wrapper (line 102), so a key pressed in the search box bubbles and runs the handler twice; the two queued highlight updates compose | list open with three or more entries, highlight on entry 0, ArrowDown typed in the search box: the highlight lands on entry 2 and entry 1 is skipped | one entry per key press, reaching every entry in turn | medium, not executed | LanguageSelector.InputArrowsSkipEntries | LanguageSelector.ArrowDownVisitsEvery |
