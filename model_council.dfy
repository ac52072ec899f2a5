/** services/modelCouncilService.ts: the page-by-page "Model Council". For each page in order it
    looks the page up in the content cache, otherwise asks the cheap Flash tier, escalates to Pro
    and the Judge when Flash flags the page as complex, and caches the verdict; then it assembles
    the document.

    The pure functions `Step` and `RunFrom` are the specification; `RunModelCouncil` is the loop of
    the source, proved to end in the state `RunFrom` describes. */
module ModelCouncil {
  import opened Wrappers
  import opened Types
  import opened Retry
  import Strings
  import PdfService
  import StorageService

  /** The fields a tier's JSON reply may carry (each tier's schema uses some of them). */
  datatype Payload = Payload(
    extractedText: Option<string>,
    translation: Option<string>,
    notes: Option<string>,
    isComplex: Option<bool>,
    finalTranslation: Option<string>,
    judgeReasoning: Option<string>,
    confidenceScore: Option<int>)

  /** `JSON.parse("{}")` */
  const EMPTY_PAYLOAD := Payload(None, None, None, None, None, None, None)

  /** Why a run rejects: a provider failure that `withRetry` rethrew, a reply `JSON.parse` throws on,
      `atob` throwing on a page that is not base64, or a cache transaction error. */
  datatype Error = ApiFailure(error: ApiError) | ParseFailure | InvalidBase64 | CacheWriteRejected

  /** "Page k of N" */
  datatype PageLabel = PageLabel(page: nat, total: nat)

  function LabelText(l: PageLabel): string {
    "Page " + Strings.NatToString(l.page) + " of " + Strings.NatToString(l.total)
  }

  /** One inference request; the image is the page after `cleanBase64`. */
  datatype Request =
    | FlashRequest(image: string, targetLang: string, pageLabel: PageLabel)
    | ProRequest(image: string, targetLang: string, pageLabel: PageLabel)
    | JudgeRequest(image: string, flash: AgentResult, pro: AgentResult, targetLang: string, pageLabel: PageLabel)

  /** The progress messages passed to `onStatusUpdate`. */
  datatype Status =
    | ServedFromCache(pageLabel: PageLabel)
    | FlashScanning(pageLabel: PageLabel)
    | ProAnalyzing(pageLabel: PageLabel)
    | JudicialReview(pageLabel: PageLabel)
    | PageTranslated(pageLabel: PageLabel)
    | Assembling(total: nat)
    | Adjourned

  /** Everything outside the council that it depends on:
      - `atob` and `digest` (SHA-256) of the page hash;
      - `provider(request, n, k)`: how attempt k of the n-th tier invocation of the run resolves;
      - `lookupFault(i)` and `saveFault(i)`: what the cache read and write of page i run into. */
  datatype Env = Env(
    atob: string -> Option<string>,
    digest: seq<PdfService.byte> -> seq<PdfService.byte>,
    provider: (Request, nat, nat) -> Attempt<Reply<Payload>>,
    lookupFault: nat -> StorageService.Fault,
    saveFault: nat -> StorageService.Fault)

  /** How many times each tier has been invoked so far in the run. */
  datatype Counters = Counters(flash: nat, pro: nat, judge: nat) {
    function Invocations(): nat { flash + pro + judge }
  }

  // ---- cleanBase64 ----

  /** The index of the first `c` in `s`. */
  function IndexOf(s: string, c: char): (r: Option<nat>)
    ensures r.Some? ==> r.value < |s| && s[r.value] == c && c !in s[..r.value]
    ensures r.None? ==> c !in s
    decreases |s|
  {
    if s == [] then None
    else if s[0] == c then Some(0)
    else match IndexOf(s[1..], c)
      case None => None
      case Some(i) => assert s[..i + 1] == [s[0]] + s[1..][..i]; Some(i + 1)
  }

  /** `s.split(c)[0]`: the text before the first `c`. */
  function Before(s: string, c: char): string {
    match IndexOf(s, c)
    case None => s
    case Some(i) => s[..i]
  }

  /** `b64.split(',')[1] || b64`: the second comma-separated field if there is one and it is
      not empty, the whole string otherwise. */
  function CleanBase64(b64: string): string {
    match IndexOf(b64, ',')
    case None => b64
    case Some(i) => Strings.OrElse(Before(b64[i + 1..], ','), b64)
  }

  /** A data URL loses its header; plain base64 (no comma) is kept as it is. */
  lemma CleanBase64StripsHeader(header: string, payload: string)
    requires ',' !in header && ',' !in payload
    ensures CleanBase64(header + "," + payload) == Strings.OrElse(payload, header + "," + payload)
    ensures CleanBase64(payload) == payload
  {
    var s := header + "," + payload;
    assert s[..|header|] == header;
    assert s[|header|] == ',';
    assert IndexOf(s, ',') == Some(|header|) by {
      assert forall j :: 0 <= j < |header| ==> s[j] == header[j];
      assert s[..|header| + 1][|header|] == ',';
    }
    assert s[|header| + 1..] == payload;
  }

  // ---- the tiers ----

  /** The outcomes of the successive attempts of one tier invocation. */
  function Attempts(env: Env, req: Request, invocation: nat): nat -> Attempt<Reply<Payload>> {
    (k: nat) => env.provider(req, invocation, k)
  }

  /** `JSON.parse(response.text || "{}")` */
  function ParseReply(r: Reply<Payload>): Result<Payload, Error> {
    match r
    case EmptyText => Success(EMPTY_PAYLOAD)
    case Json(p) => Success(p)
    case Malformed => Failure(ParseFailure)
  }

  /** `withRetry(callApi)` with the defaults, then the parse. */
  function TierReply(env: Env, req: Request, invocation: nat): Result<Payload, Error> {
    var t := Retry.Retry(Attempts(env, req, invocation), 0, DEFAULT_RETRIES, RETRY_DELAY_MS);
    match t.result
    case Fail(e) => Failure(ApiFailure(e))
    case Ok(r) => ParseReply(r)
  }

  function OrEmpty(o: Option<string>, d: string): string {
    Strings.OrElse(o.GetOr(""), d)
  }

  /** The Flash result together with its triage flag. */
  datatype Triaged = Triaged(result: AgentResult, isComplex: bool)

  /** `runAgentFlash`'s defaulting of the parsed reply. */
  function FlashResult(p: Payload): (t: Triaged)
    ensures t.result.confidence == 85 && t.result.model == MODEL_PERFORMANCE
    ensures t.result.extractedText == (if p.extractedText.Some? then p.extractedText.value else "")
    ensures t.result.translation == (if p.translation.Some? then p.translation.value else "")
    ensures t.result.notes == (if p.notes.Some? && p.notes.value != "" then p.notes.value
                               else "Initial OCR and translation complete.")
    ensures t.isComplex <==> p.isComplex == Some(true)
  {
    Triaged(
      AgentResult("Agent Flash", MODEL_PERFORMANCE, OrEmpty(p.extractedText, ""), OrEmpty(p.translation, ""),
        85, OrEmpty(p.notes, "Initial OCR and translation complete.")),
      p.isComplex == Some(true))
  }

  /** `runAgentPro`'s defaulting of the parsed reply. */
  function ProResult(p: Payload): (r: AgentResult)
    ensures r.confidence == 95 && r.model == MODEL_EXPERT
    ensures r.notes == (if p.notes.Some? then p.notes.value else "")
    ensures r.extractedText == (if p.extractedText.Some? then p.extractedText.value else "")
    ensures r.translation == (if p.translation.Some? then p.translation.value else "")
  {
    AgentResult("Agent Pro", MODEL_EXPERT, OrEmpty(p.extractedText, ""), OrEmpty(p.translation, ""),
      95, OrEmpty(p.notes, ""))
  }

  /** `runTheJudge`'s verdict: `confidenceScore || 90` turns a missing score and a score of 0 into 90. */
  function JudgeVerdict(p: Payload, flash: AgentResult, pro: AgentResult): (v: CouncilVerdict)
    ensures v.agentResults == [flash, pro]
    ensures v.finalTranslation == (if p.finalTranslation.Some? then p.finalTranslation.value else "")
    ensures v.judgeReasoning == (if p.judgeReasoning.Some? then p.judgeReasoning.value else "")
    ensures v.confidenceScore == 90 <==> p.confidenceScore.None? || p.confidenceScore.value in {0, 90}
    ensures p.confidenceScore.Some? && p.confidenceScore.value != 0 ==> v.confidenceScore == p.confidenceScore.value
  {
    CouncilVerdict(
      OrEmpty(p.finalTranslation, ""),
      [flash, pro],
      OrEmpty(p.judgeReasoning, ""),
      if p.confidenceScore.Some? && p.confidenceScore.value != 0 then p.confidenceScore.value else 90)
  }

  /** The verdict of a page Flash did not flag: Flash's translation, accepted at 90. */
  function FastVerdict(flash: AgentResult): CouncilVerdict {
    CouncilVerdict(flash.translation, [flash, flash], "Flash translation approved for standard content.", 90)
  }

  /** What consulting the tiers about one page yields: a verdict or the error that ended it,
      the updated counters, and the statuses emitted after "Agent Flash scanning". */
  datatype Consultation = Consultation(verdict: Result<CouncilVerdict, Error>, counters: Counters, log: seq<Status>)

  /** Flash, then, if it flags the page, Pro and the Judge. */
  function Consult(env: Env, c: Counters, image: string, lang: string, pageLabel: PageLabel): Consultation {
    var c1 := c.(flash := c.flash + 1);
    match TierReply(env, FlashRequest(image, lang, pageLabel), c.Invocations())
    case Failure(e) => Consultation(Failure(e), c1, [])
    case Success(fp) =>
      var flash := FlashResult(fp);
      if !flash.isComplex then Consultation(Success(FastVerdict(flash.result)), c1, [PageTranslated(pageLabel)])
      else
        var c2 := c1.(pro := c1.pro + 1);
        match TierReply(env, ProRequest(image, lang, pageLabel), c1.Invocations())
        case Failure(e) => Consultation(Failure(e), c2, [ProAnalyzing(pageLabel)])
        case Success(pp) =>
          var pro := ProResult(pp);
          var c3 := c2.(judge := c2.judge + 1);
          var log := [ProAnalyzing(pageLabel), JudicialReview(pageLabel)];
          match TierReply(env, JudgeRequest(image, flash.result, pro, lang, pageLabel), c2.Invocations())
          case Failure(e) => Consultation(Failure(e), c3, log)
          case Success(jp) => Consultation(Success(JudgeVerdict(jp, flash.result, pro)), c3, log)
  }

  // ---- the page loop ----

  /** `${pageHash}_${targetLang}` */
  function CacheKey(hash: string, lang: string): string {
    hash + "_" + lang
  }

  /** The state of `runModelCouncil` between pages: the cache store, the verdicts so far, the tier
      counters, the statuses emitted, and the error that ended the run, if any. */
  datatype RunState = RunState(
    cache: map<string, CouncilVerdict>,
    verdicts: seq<CouncilVerdict>,
    counters: Counters,
    log: seq<Status>,
    failure: Option<Error>)

  function Start(cache: map<string, CouncilVerdict>): RunState {
    RunState(cache, [], Counters(0, 0, 0), [], None)
  }

  /** One iteration of the page loop, for page i (0-based). */
  function Step(env: Env, pages: seq<string>, lang: string, st: RunState, i: nat): RunState
    requires i < |pages|
  {
    var pageLabel := PageLabel(i + 1, |pages|);
    match PdfService.ImageHash(env.atob, env.digest, pages[i])
    case None => st.(failure := Some(InvalidBase64))
    case Some(hash) =>
      var key := CacheKey(hash, lang);
      match StorageService.CacheRead(st.cache, key, env.lookupFault(i))
      case Some(cached) =>
        st.(verdicts := st.verdicts + [cached], log := st.log + [ServedFromCache(pageLabel)])
      case None =>
        var con := Consult(env, st.counters, CleanBase64(pages[i]), lang, pageLabel);
        var log := st.log + [FlashScanning(pageLabel)] + con.log;
        match con.verdict
        case Failure(e) => RunState(st.cache, st.verdicts, con.counters, log, Some(e))
        case Success(v) =>
          var cache := StorageService.CacheWrite(st.cache, key, v, env.saveFault(i));
          if StorageService.SaveCompletion(env.saveFault(i)) == StorageService.Rejected
          then RunState(cache, st.verdicts, con.counters, log, Some(CacheWriteRejected))
          else RunState(cache, st.verdicts + [v], con.counters, log, None)
  }

  /** The loop from page i on; it stops at the first error. */
  function RunFrom(env: Env, pages: seq<string>, lang: string, st: RunState, i: nat): RunState
    requires i <= |pages|
    decreases |pages| - i
  {
    if i == |pages| || st.failure.Some? then st
    else RunFrom(env, pages, lang, Step(env, pages, lang, st, i), i + 1)
  }

  // ---- aggregation ----

  function PageSection(v: CouncilVerdict, page: nat, total: nat): string {
    "--- Page " + Strings.NatToString(page) + " of " + Strings.NatToString(total) + " ---\n" + v.finalTranslation
  }

  function Sections(vs: seq<CouncilVerdict>, total: nat): (ss: seq<string>)
    ensures |ss| == |vs|
    ensures forall k :: 0 <= k < |vs| ==> ss[k] == PageSection(vs[k], k + 1, total)
  {
    seq(|vs|, k requires 0 <= k < |vs| => PageSection(vs[k], k + 1, total))
  }

  function ReasoningLines(vs: seq<CouncilVerdict>): (ss: seq<string>)
    ensures |ss| == |vs|
    ensures forall k :: 0 <= k < |vs| ==> ss[k] == "[Page " + Strings.NatToString(k + 1) + "]: " + vs[k].judgeReasoning
  {
    seq(|vs|, k requires 0 <= k < |vs| => "[Page " + Strings.NatToString(k + 1) + "]: " + vs[k].judgeReasoning)
  }

  function ConfidenceSum(vs: seq<CouncilVerdict>): int
    decreases |vs|
  {
    if vs == [] then 0 else ConfidenceSum(vs[..|vs| - 1]) + vs[|vs| - 1].confidenceScore
  }

  /** `Math.round(sum / n)`: the nearest integer, halves rounded up; with a positive divisor
      Dafny's division is the floor, so this holds for negative sums as well. */
  function RoundedMean(sum: int, n: nat): int
    requires n > 0
  {
    (2 * sum + n) / (2 * n)
  }

  /** The assembled translation: the page sections separated by blank lines. */
  function Document(vs: seq<CouncilVerdict>, total: nat): string {
    Strings.Join(Sections(vs, total), "\n\n")
  }

  /** The document verdict assembled from the page verdicts. */
  function Aggregate(vs: seq<CouncilVerdict>, total: nat): CouncilVerdict
    requires |vs| > 0
  {
    CouncilVerdict(
      Document(vs, total),
      vs[0].agentResults,
      Strings.Join(ReasoningLines(vs), "\n\n"),
      RoundedMean(ConfidenceSum(vs), |vs|))
  }

  /** Without an error, every page contributed exactly one verdict. */
  lemma {:induction false} RunVerdictCount(env: Env, pages: seq<string>, lang: string, st: RunState, i: nat)
    requires i <= |pages|
    requires st.failure.None?
    ensures var fin := RunFrom(env, pages, lang, st, i);
      && |st.verdicts| <= |fin.verdicts|
      && fin.verdicts[..|st.verdicts|] == st.verdicts
      && (fin.failure.None? ==> |fin.verdicts| == |st.verdicts| + |pages| - i)
    decreases |pages| - i, 1
  {
    if i < |pages| {
      RunVerdictCountStep(env, pages, lang, st, i);
    }
  }

  /** The inductive step of `RunVerdictCount`: page i appends at most one verdict, then the rest of the run. */
  lemma {:induction false} RunVerdictCountStep(env: Env, pages: seq<string>, lang: string, st: RunState, i: nat)
    requires i < |pages|
    requires st.failure.None?
    ensures var fin := RunFrom(env, pages, lang, st, i);
      && |st.verdicts| <= |fin.verdicts|
      && fin.verdicts[..|st.verdicts|] == st.verdicts
      && (fin.failure.None? ==> |fin.verdicts| == |st.verdicts| + |pages| - i)
    decreases |pages| - i, 0
  {
    var next := AppendingStep(env, pages, lang, st, i);
    if next.failure.None? {
      RunVerdictCount(env, pages, lang, next, i + 1);
      var fin := RunFrom(env, pages, lang, next, i + 1);
      assert fin.verdicts[..|st.verdicts|] == fin.verdicts[..|next.verdicts|][..|st.verdicts|];
    }
  }

  /** One step appends at most one verdict, exactly one when it does not fail, and the run goes on from it. */
  lemma AppendingStep(env: Env, pages: seq<string>, lang: string, st: RunState, i: nat) returns (next: RunState)
    requires i < |pages|
    requires st.failure.None?
    ensures RunFrom(env, pages, lang, st, i) == RunFrom(env, pages, lang, next, i + 1)
    ensures next.failure.Some? ==> RunFrom(env, pages, lang, next, i + 1) == next
    ensures |st.verdicts| <= |next.verdicts| <= |st.verdicts| + 1 && next.verdicts[..|st.verdicts|] == st.verdicts
    ensures next.failure.None? ==> |next.verdicts| == |st.verdicts| + 1
  {
    next := Step(env, pages, lang, st, i);
    assert |st.verdicts| <= |next.verdicts| <= |st.verdicts| + 1 && next.verdicts[..|st.verdicts|] == st.verdicts;
  }

  /** What `runModelCouncil` resolves to: the first error, or the assembled document. */
  function CouncilResult(env: Env, pages: seq<string>, lang: string, cache: map<string, CouncilVerdict>): Result<CouncilVerdict, Error>
    requires |pages| > 0
  {
    var fin := RunFrom(env, pages, lang, Start(cache), 0);
    if fin.failure.Some? then Failure(fin.failure.value)
    else
      RunVerdictCount(env, pages, lang, Start(cache), 0);
      Success(Aggregate(fin.verdicts, |pages|))
  }

  /** The statuses of a whole run: the page statuses, then the two closing ones after success. */
  function CouncilLog(fin: RunState, total: nat): seq<Status> {
    if fin.failure.Some? then fin.log else fin.log + [Assembling(total), Adjourned]
  }

  // ---- the imperative pipeline ----

  /** One tier invocation: `withRetry(callApi)`, then `JSON.parse(response.text || "{}")`. */
  method CallTier(env: Env, req: Request, invocation: nat) returns (r: Result<Payload, Error>)
    ensures r == TierReply(env, req, invocation)
  {
    var t := WithRetry(Attempts(env, req, invocation), DEFAULT_RETRIES, RETRY_DELAY_MS);
    match t.result
    case Fail(e) => r := Failure(ApiFailure(e));
    case Ok(reply) => r := ParseReply(reply);
  }

  /** Flash, and on escalation Pro then the Judge, counting each invocation. */
  method ConsultTiers(env: Env, counters: Counters, image: string, lang: string, pageLabel: PageLabel)
    returns (verdict: Result<CouncilVerdict, Error>, c: Counters, log: seq<Status>)
    ensures Consultation(verdict, c, log) == Consult(env, counters, image, lang, pageLabel)
  {
    c, log := counters, [];
    var fr := CallTier(env, FlashRequest(image, lang, pageLabel), c.Invocations());
    c := c.(flash := c.flash + 1);
    if fr.Failure? {
      return Failure(fr.error), c, log;
    }
    var flash := FlashResult(fr.value);
    if !flash.isComplex {
      log := log + [PageTranslated(pageLabel)];
      verdict := Success(FastVerdict(flash.result));
      return;
    }
    log := log + [ProAnalyzing(pageLabel)];
    var pr := CallTier(env, ProRequest(image, lang, pageLabel), c.Invocations());
    c := c.(pro := c.pro + 1);
    if pr.Failure? {
      return Failure(pr.error), c, log;
    }
    var pro := ProResult(pr.value);
    log := log + [JudicialReview(pageLabel)];
    var jr := CallTier(env, JudgeRequest(image, flash.result, pro, lang, pageLabel), c.Invocations());
    c := c.(judge := c.judge + 1);
    if jr.Failure? {
      return Failure(jr.error), c, log;
    }
    verdict := Success(JudgeVerdict(jr.value, flash.result, pro));
  }

  /** One page: hash, cache lookup, consultation on a miss, cache write. */
  method ProcessPage(db: StorageService.Database, env: Env, pages: seq<string>, lang: string, i: nat,
                     verdicts: seq<CouncilVerdict>, counters: Counters, log: seq<Status>)
    returns (verdicts': seq<CouncilVerdict>, counters': Counters, log': seq<Status>, failure: Option<Error>)
    requires i < |pages|
    modifies db`cache
    ensures RunState(db.cache, verdicts', counters', log', failure)
         == Step(env, pages, lang, RunState(old(db.cache), verdicts, counters, log, None), i)
  {
    verdicts', counters', log', failure := verdicts, counters, log, None;
    var pageLabel := PageLabel(i + 1, |pages|);
    var hash := PdfService.ComputeImageHash(env.atob, env.digest, pages[i]);
    if hash.None? {
      failure := Some(InvalidBase64);
      return;
    }
    var key := CacheKey(hash.value, lang);
    var cached := db.GetCachedResult(key, env.lookupFault(i));
    if cached.Some? {
      log' := log' + [ServedFromCache(pageLabel)];
      verdicts' := verdicts' + [cached.value];
      return;
    }
    log' := log' + [FlashScanning(pageLabel)];
    var verdict, c, more := ConsultTiers(env, counters, CleanBase64(pages[i]), lang, pageLabel);
    counters', log' := c, log' + more;
    if verdict.Failure? {
      failure := Some(verdict.error);
      return;
    }
    var saved := db.SaveCachedResult(key, verdict.value, env.saveFault(i));
    if saved == StorageService.Rejected {
      failure := Some(CacheWriteRejected);
      return;
    }
    verdicts' := verdicts' + [verdict.value];
  }

  /** `runModelCouncil(allImages, targetLang, onStatusUpdate)`. The caller only runs it on a
      non-empty page list (App.tsx checks `sourceImages.length > 0`). */
  method RunModelCouncil(db: StorageService.Database, env: Env, allImages: seq<string>, targetLang: string)
    returns (r: Result<CouncilVerdict, Error>, log: seq<Status>, counters: Counters)
    requires |allImages| > 0
    modifies db`cache
    ensures var fin := RunFrom(env, allImages, targetLang, Start(old(db.cache)), 0);
      && db.cache == fin.cache
      && counters == fin.counters
      && log == CouncilLog(fin, |allImages|)
      && r == CouncilResult(env, allImages, targetLang, old(db.cache))
  {
    var verdicts: seq<CouncilVerdict> := [];
    counters, log := Counters(0, 0, 0), [];
    var i := 0;
    while i < |allImages|
      invariant i <= |allImages|
      invariant RunFrom(env, allImages, targetLang, Start(old(db.cache)), 0)
             == RunFrom(env, allImages, targetLang, RunState(db.cache, verdicts, counters, log, None), i)
    {
      var failure;
      verdicts, counters, log, failure := ProcessPage(db, env, allImages, targetLang, i, verdicts, counters, log);
      i := i + 1;
      if failure.Some? {
        return Failure(failure.value), log, counters;
      }
    }
    log := log + [Assembling(|allImages|), Adjourned];
    RunVerdictCount(env, allImages, targetLang, Start(old(db.cache)), 0);
    r := Success(Aggregate(verdicts, |allImages|));
  }
}
