/** What the Model Council promises, proved about the specification in ModelCouncil. */
module ModelCouncilProofs {
  import opened Wrappers
  import opened Types
  import opened ModelCouncil
  import Strings
  import PdfService
  import StorageService

  // ---- the cache key ----

  /** Page hashes are hex, so the "_" after the hash is the first one in the key: the key determines
      both the content hash and the language. The same page under another target language never
      reads another language's entry. */
  lemma {:induction false} CacheKeySeparates(h1: string, l1: string, h2: string, l2: string)
    requires forall i :: 0 <= i < |h1| ==> PdfService.IsHexChar(h1[i])
    requires forall i :: 0 <= i < |h2| ==> PdfService.IsHexChar(h2[i])
    ensures CacheKey(h1, l1) == CacheKey(h2, l2) <==> h1 == h2 && l1 == l2
  {
    var k1, k2 := CacheKey(h1, l1), CacheKey(h2, l2);
    if k1 == k2 {
      assert k1[|h1|] == '_' && k2[|h2|] == '_';
      assert |h1| == |h2|;
      assert h1 == k1[..|h1|] == k2[..|h2|] == h2;
      assert l1 == k1[|h1| + 1..] == k2[|h2| + 1..] == l2;
    }
  }

  // ---- one page ----

  ghost predicate Decodable(env: Env, pages: seq<string>) {
    forall i :: 0 <= i < |pages| ==> env.atob(pages[i]).Some?
  }

  /** The cache key of page i. */
  function PageKey(env: Env, pages: seq<string>, lang: string, i: nat): string
    requires i < |pages| && env.atob(pages[i]).Some?
  {
    CacheKey(PdfService.ImageHash(env.atob, env.digest, pages[i]).value, lang)
  }

  /** On a cache hit the cached verdict is appended unchanged, no tier is invoked and nothing is written. */
  lemma StepCacheHit(env: Env, pages: seq<string>, lang: string, st: RunState, i: nat)
    requires i < |pages| && env.atob(pages[i]).Some?
    requires env.lookupFault(i) == StorageService.NoFault && PageKey(env, pages, lang, i) in st.cache
    ensures var next := Step(env, pages, lang, st, i);
      && next.verdicts == st.verdicts + [st.cache[PageKey(env, pages, lang, i)]]
      && next.counters == st.counters
      && next.cache == st.cache
      && next.failure == st.failure
  {
  }

  /** A page Flash does not flag is accepted from Flash alone: translation from Flash, confidence 90,
      Flash in both provenance slots; Pro and the Judge are not invoked. The verdict is cached before
      it is appended. */
  lemma StepFastAccept(env: Env, pages: seq<string>, lang: string, st: RunState, i: nat, fp: Payload)
    requires i < |pages| && env.atob(pages[i]).Some?
    requires env.lookupFault(i) == StorageService.NoFault && PageKey(env, pages, lang, i) !in st.cache
    requires env.saveFault(i) == StorageService.NoFault
    requires TierReply(env, FlashRequest(CleanBase64(pages[i]), lang, PageLabel(i + 1, |pages|)),
                       st.counters.Invocations()) == Success(fp)
    requires fp.isComplex != Some(true)
    requires st.failure.None?
    ensures var next := Step(env, pages, lang, st, i);
      var v := next.verdicts[|st.verdicts|];
      && |next.verdicts| == |st.verdicts| + 1
      && next.verdicts[..|st.verdicts|] == st.verdicts
      && v.finalTranslation == FlashResult(fp).result.translation
      && v.confidenceScore == 90
      && v.agentResults == [FlashResult(fp).result, FlashResult(fp).result]
      && next.counters == st.counters.(flash := st.counters.flash + 1)
      && next.cache == st.cache[PageKey(env, pages, lang, i) := v]
      && next.failure == st.failure
  {
    var next := Step(env, pages, lang, st, i);
    StepOnMiss(env, pages, lang, st, i);
    assert next.verdicts[..|st.verdicts|] == st.verdicts;
  }

  /** A flagged page invokes Pro once and the Judge once, and the Judge's output is the verdict. */
  lemma StepEscalated(env: Env, pages: seq<string>, lang: string, st: RunState, i: nat, fp: Payload, pp: Payload, jp: Payload)
    requires i < |pages| && env.atob(pages[i]).Some?
    requires env.lookupFault(i) == StorageService.NoFault && PageKey(env, pages, lang, i) !in st.cache
    requires env.saveFault(i) == StorageService.NoFault
    requires var image, pl, c := CleanBase64(pages[i]), PageLabel(i + 1, |pages|), st.counters;
      && TierReply(env, FlashRequest(image, lang, pl), c.Invocations()) == Success(fp)
      && fp.isComplex == Some(true)
      && TierReply(env, ProRequest(image, lang, pl), c.Invocations() + 1) == Success(pp)
      && TierReply(env, JudgeRequest(image, FlashResult(fp).result, ProResult(pp), lang, pl),
                   c.Invocations() + 2) == Success(jp)
    requires st.failure.None?
    ensures var next := Step(env, pages, lang, st, i);
      var v := JudgeVerdict(jp, FlashResult(fp).result, ProResult(pp));
      && next.verdicts == st.verdicts + [v]
      && v.agentResults == [FlashResult(fp).result, ProResult(pp)]
      && next.counters == Counters(st.counters.flash + 1, st.counters.pro + 1, st.counters.judge + 1)
      && next.cache == st.cache[PageKey(env, pages, lang, i) := v]
      && next.failure == st.failure
  {
    StepOnMiss(env, pages, lang, st, i);
  }

  /** A cache write that fails before its transaction is swallowed: the verdict is still appended. */
  lemma StepSaveFailureSwallowed(env: Env, pages: seq<string>, lang: string, st: RunState, i: nat)
    requires i < |pages| && env.atob(pages[i]).Some?
    requires env.saveFault(i) == StorageService.BeforeCommit
    requires st.failure.None?
    ensures var next := Step(env, pages, lang, st, i);
      && next.cache == st.cache
      && (next.failure.None? ==> |next.verdicts| == |st.verdicts| + 1)
      && next.failure != Some(CacheWriteRejected)
  {
    if env.lookupFault(i) == StorageService.NoFault && PageKey(env, pages, lang, i) in st.cache {
      StepCacheHit(env, pages, lang, st, i);
    } else {
      StepOnMiss(env, pages, lang, st, i);
    }
  }

  /** A failed cache transaction, however, rejects the whole run: the verdict is not appended. */
  lemma StepTransactionErrorEscapes(env: Env, pages: seq<string>, lang: string, st: RunState, i: nat)
    requires i < |pages| && env.atob(pages[i]).Some?
    requires env.lookupFault(i) == StorageService.NoFault && PageKey(env, pages, lang, i) !in st.cache
    requires env.saveFault(i) == StorageService.TransactionError
    requires Consult(env, st.counters, CleanBase64(pages[i]), lang, PageLabel(i + 1, |pages|)).verdict.Success?
    ensures var next := Step(env, pages, lang, st, i);
      next.failure == Some(CacheWriteRejected) && next.verdicts == st.verdicts && next.cache == st.cache
  {
    StepOnMiss(env, pages, lang, st, i);
  }

  /** The step on a page whose key is not read from the cache: the tiers are consulted, a verdict is
      cached under the page's key, and it is appended unless the cache transaction rejects. */
  lemma StepOnMiss(env: Env, pages: seq<string>, lang: string, st: RunState, i: nat)
    requires i < |pages| && env.atob(pages[i]).Some?
    requires !(env.lookupFault(i) == StorageService.NoFault && PageKey(env, pages, lang, i) in st.cache)
    ensures var con := Consult(env, st.counters, CleanBase64(pages[i]), lang, PageLabel(i + 1, |pages|));
      var next := Step(env, pages, lang, st, i);
      var key := PageKey(env, pages, lang, i);
      && next.counters == con.counters
      && (con.verdict.Failure? ==>
            next.failure == Some(con.verdict.error) && next.cache == st.cache && next.verdicts == st.verdicts)
      && (con.verdict.Success? ==>
            && next.cache == StorageService.CacheWrite(st.cache, key, con.verdict.value, env.saveFault(i))
            && (if env.saveFault(i) == StorageService.TransactionError
                then next.failure == Some(CacheWriteRejected) && next.verdicts == st.verdicts
                else next.failure.None? && next.verdicts == st.verdicts + [con.verdict.value]))
  {
    var hash := PdfService.ImageHash(env.atob, env.digest, pages[i]).value;
    assert PdfService.ImageHash(env.atob, env.digest, pages[i]) == Some(hash);
  }

  // ---- the whole loop ----

  /** The tier counters of `r`, counted from `c0`: the Judge once per Pro invocation (Pro one ahead
      only in a failed run), Pro never more often than Flash, and Flash at most `n` times. */
  ghost predicate CountsWithin(c0: Counters, r: RunState, n: int) {
    && r.counters.judge <= r.counters.pro <= r.counters.judge + 1
    && r.counters.pro - c0.pro <= r.counters.flash - c0.flash <= n
    && (r.failure.None? ==> r.counters.pro == r.counters.judge)
  }

  /** Each tier is invoked at most once per page, Pro only after Flash and the Judge only after Pro;
      a run that succeeds called Pro and the Judge equally often. */
  lemma {:induction false} RunCounters(env: Env, pages: seq<string>, lang: string, st: RunState, i: nat)
    requires i <= |pages| && st.failure.None?
    requires st.counters.judge == st.counters.pro
    ensures CountsWithin(st.counters, RunFrom(env, pages, lang, st, i), |pages| - i)
    decreases |pages| - i, 1
  {
    if i < |pages| {
      RunCountersStep(env, pages, lang, st, i);
    }
  }

  /** The inductive step of `RunCounters`: one page, then the rest of the run. */
  lemma {:induction false} RunCountersStep(env: Env, pages: seq<string>, lang: string, st: RunState, i: nat)
    requires i < |pages| && st.failure.None?
    requires st.counters.judge == st.counters.pro
    ensures CountsWithin(st.counters, RunFrom(env, pages, lang, st, i), |pages| - i)
    decreases |pages| - i, 0
  {
    var next := CountedStep(env, pages, lang, st, i);
    if next.failure.None? {
      RunCounters(env, pages, lang, next, i + 1);
    }
    ComposeCounts(st.counters, next, RunFrom(env, pages, lang, next, i + 1), |pages| - i);
  }

  /** Counts over one page followed by counts over the remaining n - 1 pages (none if that page
      ended the run) are counts over n pages. */
  lemma ComposeCounts(c0: Counters, next: RunState, fin: RunState, n: int)
    requires CountsWithin(c0, next, 1) && c0.flash <= next.counters.flash && n >= 1
    requires next.failure.None? ==> CountsWithin(next.counters, fin, n - 1)
    requires next.failure.Some? ==> fin == next
    ensures CountsWithin(c0, fin, n)
  {
  }

  /** The run from page i is the run from page i + 1 after a step whose counters keep the bounds. */
  lemma CountedStep(env: Env, pages: seq<string>, lang: string, st: RunState, i: nat) returns (next: RunState)
    requires i < |pages| && st.failure.None?
    requires st.counters.judge == st.counters.pro
    ensures RunFrom(env, pages, lang, st, i) == RunFrom(env, pages, lang, next, i + 1)
    ensures next.failure.Some? ==> RunFrom(env, pages, lang, next, i + 1) == next
    ensures CountsWithin(st.counters, next, 1) && st.counters.flash <= next.counters.flash
  {
    next := Step(env, pages, lang, st, i);
    StepCounters(env, pages, lang, st, i);
  }

  /** One page invokes Flash at most once, Pro at most once and only after Flash, and the Judge only
      after Pro; only a Pro failure leaves Pro one ahead of the Judge, and it ends the run. */
  lemma StepCounters(env: Env, pages: seq<string>, lang: string, st: RunState, i: nat)
    requires i < |pages| && st.counters.judge == st.counters.pro
    ensures var next := Step(env, pages, lang, st, i);
      && next.counters.judge <= next.counters.pro <= next.counters.judge + 1
      && next.counters.pro - st.counters.pro <= next.counters.flash - st.counters.flash <= 1
      && st.counters.flash <= next.counters.flash
      && (next.failure.None? ==> next.counters.pro == next.counters.judge)
  {
    if env.atob(pages[i]).Some? {
      if !(env.lookupFault(i) == StorageService.NoFault && PageKey(env, pages, lang, i) in st.cache) {
        StepOnMiss(env, pages, lang, st, i);
      }
    }
  }

  ghost predicate CacheFaultFree(env: Env, n: nat) {
    forall i :: 0 <= i < n ==> env.lookupFault(i) == StorageService.NoFault && env.saveFault(i) == StorageService.NoFault
  }

  /** After i pages, each page's verdict is the one cached under its key. */
  ghost predicate CacheHoldsVerdicts(env: Env, pages: seq<string>, lang: string, st: RunState, i: nat)
    requires i <= |pages| && Decodable(env, pages)
  {
    && |st.verdicts| == i
    && forall k :: 0 <= k < i ==>
         PageKey(env, pages, lang, k) in st.cache && st.cache[PageKey(env, pages, lang, k)] == st.verdicts[k]
  }

  lemma StepKeepsCacheHoldsVerdicts(env: Env, pages: seq<string>, lang: string, st: RunState, i: nat)
    requires i < |pages| && Decodable(env, pages) && CacheFaultFree(env, |pages|)
    requires st.failure.None? && CacheHoldsVerdicts(env, pages, lang, st, i)
    ensures var next := Step(env, pages, lang, st, i);
      next.failure.None? ==> CacheHoldsVerdicts(env, pages, lang, next, i + 1)
  {
    var key := PageKey(env, pages, lang, i);
    var next := Step(env, pages, lang, st, i);
    if next.failure.None? {
      if key in st.cache {
        assert next.verdicts == st.verdicts + [st.cache[key]] && next.cache == st.cache;
      } else {
        assert next.cache == st.cache[key := next.verdicts[i]];
        assert next.verdicts[..i] == st.verdicts;
        forall k | 0 <= k < i
          ensures PageKey(env, pages, lang, k) in next.cache
          ensures next.cache[PageKey(env, pages, lang, k)] == next.verdicts[k]
        {
          assert PageKey(env, pages, lang, k) != key;
          assert next.verdicts[k] == st.verdicts[k];
        }
      }
    }
  }

  /** With a cache that never fails, a successful run leaves every page's verdict cached under its key
      (a later page with the same content is served the earlier page's entry and does not overwrite it). */
  lemma {:induction false} RunCachesEveryPage(env: Env, pages: seq<string>, lang: string, st: RunState, i: nat)
    requires i <= |pages| && Decodable(env, pages) && CacheFaultFree(env, |pages|)
    requires st.failure.None? && CacheHoldsVerdicts(env, pages, lang, st, i)
    ensures var fin := RunFrom(env, pages, lang, st, i);
      fin.failure.None? ==> CacheHoldsVerdicts(env, pages, lang, fin, |pages|)
    decreases |pages| - i
  {
    if i < |pages| {
      StepKeepsCacheHoldsVerdicts(env, pages, lang, st, i);
      var next := Step(env, pages, lang, st, i);
      if next.failure.None? {
        RunCachesEveryPage(env, pages, lang, next, i + 1);
      }
    }
  }

  /** When every page's key is already cached and lookups succeed, every page is served from the
      cache: no tier is invoked, nothing is written, and the verdicts are the cached ones in page order. */
  lemma {:induction false} RunServedFromCache(env: Env, pages: seq<string>, lang: string, st: RunState, i: nat)
    requires i <= |pages| && Decodable(env, pages) && CacheFaultFree(env, |pages|)
    requires st.failure.None?
    requires forall k :: i <= k < |pages| ==> PageKey(env, pages, lang, k) in st.cache
    ensures var fin := RunFrom(env, pages, lang, st, i);
      && fin.failure.None?
      && fin.cache == st.cache
      && fin.counters == st.counters
      && |fin.verdicts| == |st.verdicts| + |pages| - i
      && fin.verdicts[..|st.verdicts|] == st.verdicts
      && forall k :: i <= k < |pages| ==>
           fin.verdicts[|st.verdicts| + k - i] == st.cache[PageKey(env, pages, lang, k)]
    decreases |pages| - i
  {
    if i < |pages| {
      StepCacheHit(env, pages, lang, st, i);
      var next := Step(env, pages, lang, st, i);
      RunServedFromCache(env, pages, lang, next, i + 1);
      var fin := RunFrom(env, pages, lang, next, i + 1);
      assert fin.verdicts[..|next.verdicts|] == next.verdicts;
      assert fin.verdicts[..|st.verdicts|] == next.verdicts[..|st.verdicts|];
      assert fin.verdicts[|st.verdicts|] == next.verdicts[|st.verdicts|];
    }
  }

  /** Running the same pages in the same language a second time, over the cache the first run left,
      returns the identical document without invoking any tier and without writing the cache. */
  lemma RepeatRunServedFromCache(env: Env, pages: seq<string>, lang: string, cache: map<string, CouncilVerdict>)
    requires |pages| > 0 && Decodable(env, pages) && CacheFaultFree(env, |pages|)
    requires RunFrom(env, pages, lang, Start(cache), 0).failure.None?
    ensures var first := RunFrom(env, pages, lang, Start(cache), 0);
      var second := RunFrom(env, pages, lang, Start(first.cache), 0);
      && second.failure.None?
      && second.verdicts == first.verdicts
      && second.counters == Counters(0, 0, 0)
      && second.cache == first.cache
      && CouncilResult(env, pages, lang, first.cache) == CouncilResult(env, pages, lang, cache)
  {
    SecondRunFromCache(env, pages, lang, cache);
    var first := RunFrom(env, pages, lang, Start(cache), 0);
    SameVerdictsSameResult(env, pages, lang, cache, first.cache);
  }

  /** The second run of `RepeatRunServedFromCache`, as facts about the two run states. */
  lemma SecondRunFromCache(env: Env, pages: seq<string>, lang: string, cache: map<string, CouncilVerdict>)
    requires Decodable(env, pages) && CacheFaultFree(env, |pages|)
    requires RunFrom(env, pages, lang, Start(cache), 0).failure.None?
    ensures var first := RunFrom(env, pages, lang, Start(cache), 0);
      var second := RunFrom(env, pages, lang, Start(first.cache), 0);
      && second.failure.None?
      && second.verdicts == first.verdicts
      && second.counters == Counters(0, 0, 0)
      && second.cache == first.cache
  {
    var first := RunFrom(env, pages, lang, Start(cache), 0);
    assert CacheHoldsVerdicts(env, pages, lang, Start(cache), 0);
    RunCachesEveryPage(env, pages, lang, Start(cache), 0);
    RunServedFromCache(env, pages, lang, Start(first.cache), 0);
    var second := RunFrom(env, pages, lang, Start(first.cache), 0);
    var none := |Start(first.cache).verdicts|;
    forall k | 0 <= k < |pages|
      ensures second.verdicts[k] == first.cache[PageKey(env, pages, lang, k)]
    {
      assert none + k - 0 == k;
    }
    SecondRunVerdicts(env, pages, lang, first, second);
  }

  /** Two runs that both succeed with the same verdicts resolve to the same document. */
  lemma SameVerdictsSameResult(env: Env, pages: seq<string>, lang: string, c1: map<string, CouncilVerdict>, c2: map<string, CouncilVerdict>)
    requires |pages| > 0
    requires RunFrom(env, pages, lang, Start(c1), 0).failure.None?
    requires RunFrom(env, pages, lang, Start(c2), 0).failure.None?
    requires RunFrom(env, pages, lang, Start(c1), 0).verdicts == RunFrom(env, pages, lang, Start(c2), 0).verdicts
    ensures CouncilResult(env, pages, lang, c1) == CouncilResult(env, pages, lang, c2)
  {
  }

  /** Verdicts read back from the cache a run filled are that run's verdicts. */
  lemma SecondRunVerdicts(env: Env, pages: seq<string>, lang: string, first: RunState, second: RunState)
    requires Decodable(env, pages) && CacheHoldsVerdicts(env, pages, lang, first, |pages|)
    requires |second.verdicts| == |pages|
    requires forall k :: 0 <= k < |pages| ==> second.verdicts[k] == first.cache[PageKey(env, pages, lang, k)]
    ensures second.verdicts == first.verdicts
  {
    forall k | 0 <= k < |pages|
      ensures second.verdicts[k] == first.verdicts[k]
    {
      assert second.verdicts[k] == first.cache[PageKey(env, pages, lang, k)];
    }
  }

  // ---- aggregation ----

  /** Page k's translation sits in the document right after the marker "--- Page k of N ---\n",
      beyond every earlier page's section and its "\n\n" separator. */
  lemma DocumentPagesInOrder(vs: seq<CouncilVerdict>, total: nat, i: nat, k: nat)
    requires i < k < |vs|
    ensures SectionStart(vs, total, i) + |PageSection(vs[i], i + 1, total)| + 2 <= SectionStart(vs, total, k)
    ensures SectionAt(vs, total, i)
    ensures SectionAt(vs, total, k)
  {
    var parts := Sections(vs, total);
    JoinPartsInOrder(parts, "\n\n", i, k);
    assert parts[i] == PageSection(vs[i], i + 1, total) && parts[k] == PageSection(vs[k], k + 1, total);
  }

  /** Where page k's section starts in the assembled document. */
  function SectionStart(vs: seq<CouncilVerdict>, total: nat, k: nat): nat
    requires k < |vs|
  {
    Strings.JoinOffset(Sections(vs, total), "\n\n", k)
  }

  /** Page k's section, marker and translation, appears in the document where it starts. */
  ghost predicate SectionAt(vs: seq<CouncilVerdict>, total: nat, k: nat)
    requires k < |vs|
  {
    var doc, o, sec := Document(vs, total), SectionStart(vs, total, k), PageSection(vs[k], k + 1, total);
    o + |sec| <= |doc| && doc[o..o + |sec|] == sec
  }

  lemma JoinPartsInOrder(parts: seq<string>, sep: string, i: nat, k: nat)
    requires i < k < |parts|
    ensures Strings.JoinOffset(parts, sep, i) + |parts[i]| + |sep| <= Strings.JoinOffset(parts, sep, k)
    ensures Strings.JoinOffset(parts, sep, k) + |parts[k]| <= |Strings.Join(parts, sep)|
    ensures Strings.Join(parts, sep)[Strings.JoinOffset(parts, sep, i)..Strings.JoinOffset(parts, sep, i) + |parts[i]|] == parts[i]
    ensures Strings.Join(parts, sep)[Strings.JoinOffset(parts, sep, k)..Strings.JoinOffset(parts, sep, k) + |parts[k]|] == parts[k]
  {
    PartInJoin(parts, sep, i);
    PartInJoin(parts, sep, k);
    Strings.JoinOffsetsIncrease(parts, sep, i, k);
  }

  lemma PartInJoin(parts: seq<string>, sep: string, i: nat)
    requires i < |parts|
    ensures Strings.JoinOffset(parts, sep, i) + |parts[i]| <= |Strings.Join(parts, sep)|
    ensures Strings.Join(parts, sep)[Strings.JoinOffset(parts, sep, i)..Strings.JoinOffset(parts, sep, i) + |parts[i]|] == parts[i]
  {
    Strings.JoinPartAt(parts, sep, i);
  }

  /** `Math.round(sum / n)` is the integer nearest to the mean, halves going up:
      r - 1/2 <= sum / n < r + 1/2. */
  lemma RoundedMeanIsNearest(sum: int, n: nat)
    requires n > 0
    ensures n * (2 * RoundedMean(sum, n) - 1) <= 2 * sum < n * (2 * RoundedMean(sum, n) + 1)
  {
  }

  lemma {:induction false} ConfidenceSumBounds(vs: seq<CouncilVerdict>, lo: int, hi: int)
    requires forall k :: 0 <= k < |vs| ==> lo <= vs[k].confidenceScore <= hi
    ensures |vs| * lo <= ConfidenceSum(vs) <= |vs| * hi
    decreases |vs|
  {
    if vs != [] {
      ConfidenceSumBounds(vs[..|vs| - 1], lo, hi);
    }
  }

  /** The document confidence stays within any range all page confidences share (in particular 0..100). */
  lemma DocumentConfidenceInRange(vs: seq<CouncilVerdict>, total: nat, lo: int, hi: int)
    requires |vs| > 0
    requires forall k :: 0 <= k < |vs| ==> lo <= vs[k].confidenceScore <= hi
    ensures lo <= Aggregate(vs, total).confidenceScore <= hi
  {
    ConfidenceSumBounds(vs, lo, hi);
    var n, s := |vs|, ConfidenceSum(vs);
    assert (2 * n) * lo == 2 * (n * lo);
    assert (2 * n) * (hi + 1) == 2 * (n * hi) + 2 * n;
    FloorDivBounds(2 * s + n, 2 * n, lo, hi);
    assert Aggregate(vs, total).confidenceScore == (2 * s + n) / (2 * n);
  }

  lemma FloorDivBounds(x: int, d: int, lo: int, hi: int)
    requires d > 0 && d * lo <= x < d * (hi + 1)
    ensures lo <= x / d <= hi
  {
    var q, r := x / d, x % d;
    assert x == d * q + r && 0 <= r < d;
    if q < lo {
      MulMonotone(d, q + 1, lo);
      assert false;
    }
    if hi < q {
      MulMonotone(d, hi + 1, q);
      assert false;
    }
  }

  lemma MulMonotone(d: nat, a: int, b: int)
    requires a <= b
    ensures d * a <= d * b
  {
  }

  /** The document verdict: page confidences 90, 100 and 80 give 90; 85 and 90 give 88 (87.5 rounds up). */
  lemma AggregateExamples(a: AgentResult)
    ensures Aggregate([CouncilVerdict("a", [a], "", 90), CouncilVerdict("b", [], "", 100),
                       CouncilVerdict("c", [], "", 80)], 3).confidenceScore == 90
    ensures Aggregate([CouncilVerdict("a", [a], "", 85), CouncilVerdict("b", [], "", 90)], 2).confidenceScore == 88
    ensures Aggregate([CouncilVerdict("a", [a], "", 85), CouncilVerdict("b", [], "", 90)], 2).agentResults == [a]
  {
    var p, q, r := CouncilVerdict("a", [a], "", 90), CouncilVerdict("b", [], "", 100), CouncilVerdict("c", [], "", 80);
    assert [p, q, r][..2] == [p, q] && [p, q][..1] == [p] && [p][..0] == [];
    assert ConfidenceSum([p]) == 90;
    assert ConfidenceSum([p, q]) == 190;
    assert ConfidenceSum([p, q, r]) == 270;
    assert RoundedMean(270, 3) == 543 / 6 == 90;
    var p2, q2 := CouncilVerdict("a", [a], "", 85), CouncilVerdict("b", [], "", 90);
    assert [p2, q2][..1] == [p2] && [p2][..0] == [];
    assert ConfidenceSum([p2]) == 85;
    assert ConfidenceSum([p2, q2]) == 175;
    assert RoundedMean(175, 2) == 352 / 4 == 88;
  }
}
