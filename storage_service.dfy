/** services/storageService.ts: the session store and the content cache, two object stores of one
    IndexedDB database. The database is a class whose two maps the methods update; what can go wrong
    in the browser is a `Fault` argument of each call. */
module StorageService {
  import opened Wrappers
  import opened Types

  const SESSION_KEY := "current_active_session"

  /** What an IndexedDB call runs into.
      - `BeforeCommit`: opening the database fails, or `transaction`, `objectStore`, `put`, `get`
        or `delete` throws; caught by the surrounding try in every export.
      - `TransactionError`: the transaction (or the read request) fires its error event. */
  datatype Fault = NoFault | BeforeCommit | TransactionError

  /** How the promise returned by a save settles. */
  datatype Completion = Resolved | Rejected

  /** A stored session as read back: an object whose fields may be missing (older schema). */
  datatype StoredSession = StoredSession(
    mode: Option<DocumentMode>,
    isScannedMode: Option<bool>,
    sourceText: Option<string>,
    sourceImages: Option<seq<string>>,
    translatedText: Option<string>,
    councilVerdict: Option<Option<CouncilVerdict>>,
    analysisResult: Option<Option<AnalysisResult>>,
    targetLanguage: Option<string>,
    sourceLanguage: Option<string>)

  /** `DEFAULT_SESSION` (its timestamp is not modelled). */
  const DEFAULT_SESSION := SessionData(TRANSLATE, false, "", [], "", None, None, "Hindi", "auto")

  /** What `store.put(data, SESSION_KEY)` writes: every field present. */
  function Stored(s: SessionData): StoredSession {
    StoredSession(Some(s.mode), Some(s.isScannedMode), Some(s.sourceText), Some(s.sourceImages),
      Some(s.translatedText), Some(s.councilVerdict), Some(s.analysisResult),
      Some(s.targetLanguage), Some(s.sourceLanguage))
  }

  /** `{ ...base, ...stored }`: a field present in the stored object wins. */
  function MergeSession(base: SessionData, stored: StoredSession): SessionData {
    SessionData(
      stored.mode.GetOr(base.mode),
      stored.isScannedMode.GetOr(base.isScannedMode),
      stored.sourceText.GetOr(base.sourceText),
      stored.sourceImages.GetOr(base.sourceImages),
      stored.translatedText.GetOr(base.translatedText),
      stored.councilVerdict.GetOr(base.councilVerdict),
      stored.analysisResult.GetOr(base.analysisResult),
      stored.targetLanguage.GetOr(base.targetLanguage),
      stored.sourceLanguage.GetOr(base.sourceLanguage))
  }

  /** A session saved in full is loaded back unchanged: the defaults are all overridden. */
  lemma MergeStoredRoundTrip(base: SessionData, s: SessionData)
    ensures MergeSession(base, Stored(s)) == s
  {
  }

  /** An object with no fields loads as the defaults; a stored source language alone overrides just that. */
  lemma MergeFieldByField(base: SessionData, lang: string)
    ensures var none := StoredSession(None, None, None, None, None, None, None, None, None);
      && MergeSession(base, none) == base
      && MergeSession(base, none.(sourceLanguage := Some(lang))) == base.(sourceLanguage := lang)
  {
  }

  // ---- the stores as values: each export's effect and result ----

  /** `getCachedResult`: the stored verdict, or null when there is none or anything fails. */
  function CacheRead(cache: map<string, CouncilVerdict>, key: string, fault: Fault): Option<CouncilVerdict> {
    if fault == NoFault && key in cache then Some(cache[key]) else None
  }

  /** The cache store after `saveCachedResult(key, value)`: written only if the transaction commits. */
  function CacheWrite(cache: map<string, CouncilVerdict>, key: string, value: CouncilVerdict, fault: Fault): map<string, CouncilVerdict> {
    if fault == NoFault then cache[key := value] else cache
  }

  /** How a save settles. A failure before the transaction is swallowed by the catch; the transaction's
      own error rejects the promise that the try block returned without awaiting, so it escapes. */
  function SaveCompletion(fault: Fault): Completion {
    if fault == TransactionError then Rejected else Resolved
  }

  function SessionWrite(sessions: map<string, StoredSession>, data: SessionData, fault: Fault): map<string, StoredSession> {
    if fault == NoFault then sessions[SESSION_KEY := Stored(data)] else sessions
  }

  /** `loadSession`: the defaults when nothing is stored or anything fails, else the stored fields over the defaults. */
  function SessionRead(sessions: map<string, StoredSession>, fault: Fault): SessionData {
    if fault == NoFault && SESSION_KEY in sessions then MergeSession(DEFAULT_SESSION, sessions[SESSION_KEY])
    else DEFAULT_SESSION
  }

  /** `clearSession` deletes the session key, and nothing else, when the transaction commits. */
  function SessionClear(sessions: map<string, StoredSession>, fault: Fault): map<string, StoredSession> {
    if fault == NoFault then sessions - {SESSION_KEY} else sessions
  }

  /** A read returns what the last committed write stored under the same key. */
  lemma CacheReadAfterWrite(cache: map<string, CouncilVerdict>, key: string, value: CouncilVerdict)
    ensures CacheRead(CacheWrite(cache, key, value, NoFault), key, NoFault) == Some(value)
  {
  }

  /** A write touches its own key only, and a write that fails leaves the store as it was. */
  lemma CacheWriteFrame(cache: map<string, CouncilVerdict>, key: string, value: CouncilVerdict, fault: Fault, other: string, readFault: Fault)
    requires other != key || fault != NoFault
    ensures CacheRead(CacheWrite(cache, key, value, fault), other, readFault) == CacheRead(cache, other, readFault)
  {
  }

  /** A failing lookup is a miss, never an error. */
  lemma CacheReadFaultIsMiss(cache: map<string, CouncilVerdict>, key: string, fault: Fault)
    requires fault != NoFault
    ensures CacheRead(cache, key, fault) == None
  {
  }

  /** A session saved and loaded without faults comes back as it was saved. */
  lemma SessionRoundTrip(sessions: map<string, StoredSession>, data: SessionData)
    ensures SessionRead(SessionWrite(sessions, data, NoFault), NoFault) == data
  {
    MergeStoredRoundTrip(DEFAULT_SESSION, data);
  }

  /** After a committed clear, loading gives the defaults. */
  lemma LoadAfterClear(sessions: map<string, StoredSession>, fault: Fault)
    ensures SessionRead(SessionClear(sessions, NoFault), fault) == DEFAULT_SESSION
  {
  }

  /** The IndexedDB database: the "sessions" store and the "semantic_cache" store. */
  class Database {
    var sessions: map<string, StoredSession>
    var cache: map<string, CouncilVerdict>

    constructor ()
      ensures sessions == map[] && cache == map[]
    {
      sessions := map[];
      cache := map[];
    }

    /** `saveSession(data)` */
    method SaveSession(data: SessionData, fault: Fault) returns (c: Completion)
      modifies this`sessions
      ensures sessions == SessionWrite(old(sessions), data, fault)
      ensures c == SaveCompletion(fault)
      ensures c == Rejected <==> fault == TransactionError
    {
      if fault == BeforeCommit {
        return Resolved;
      }
      if fault == NoFault {
        sessions := sessions[SESSION_KEY := Stored(data)];
        return Resolved;
      }
      return Rejected;
    }

    /** `loadSession()` never rejects: any failure yields the defaults. */
    method LoadSession(fault: Fault) returns (s: SessionData)
      ensures s == SessionRead(sessions, fault)
      ensures fault != NoFault || SESSION_KEY !in sessions ==> s == DEFAULT_SESSION
      ensures fault == NoFault && SESSION_KEY in sessions ==> s == MergeSession(DEFAULT_SESSION, sessions[SESSION_KEY])
    {
      if fault != NoFault {
        return DEFAULT_SESSION;
      }
      if SESSION_KEY !in sessions {
        return DEFAULT_SESSION;
      }
      s := MergeSession(DEFAULT_SESSION, sessions[SESSION_KEY]);
    }

    /** `clearSession()` always resolves to the defaults, whether or not the delete committed. */
    method ClearSession(fault: Fault) returns (s: SessionData)
      modifies this`sessions
      ensures sessions == SessionClear(old(sessions), fault)
      ensures forall k :: k != SESSION_KEY ==> (k in sessions <==> k in old(sessions))
      ensures s == DEFAULT_SESSION
    {
      if fault == NoFault {
        sessions := sessions - {SESSION_KEY};
      }
      s := DEFAULT_SESSION;
    }

    /** `getCachedResult(key)` never rejects: the inner promise is awaited inside the try. */
    method GetCachedResult(key: string, fault: Fault) returns (v: Option<CouncilVerdict>)
      ensures v == CacheRead(cache, key, fault)
      ensures v.Some? <==> fault == NoFault && key in cache
      ensures v.Some? ==> v.value == cache[key]
    {
      if fault == NoFault && key in cache {
        v := Some(cache[key]);
      } else {
        v := None;
      }
    }

    /** `saveCachedResult(key, value)` */
    method SaveCachedResult(key: string, value: CouncilVerdict, fault: Fault) returns (c: Completion)
      modifies this`cache
      ensures cache == CacheWrite(old(cache), key, value, fault)
      ensures c == SaveCompletion(fault)
    {
      if fault == NoFault {
        cache := cache[key := value];
      }
      c := SaveCompletion(fault);
    }
  }
}
