/** What the replay promises over every trace: accounting, soundness of every reported hit, and
    the effect of a wider lookback window. */
module CacheLaws {
  import opened Prelude
  import opened CachePrefix
  import opened CacheBreakpoints
  import opened CacheReplay

  function CacheBefore(o: Options, records: seq<Record>, k: nat): Cache
    requires k <= |records|
  {
    Run(o, records[..k]).cache
  }

  /** The index request k hits, or -1. */
  function HitOf(o: Options, records: seq<Record>, k: nat): (hit: int)
    requires k < |records|
    ensures -1 <= hit < |Raws(records[k])|
  {
    Hit(o, CacheBefore(o, records, k), records[k], Now(records, k))
  }

  lemma {:induction false} ResultAt(o: Options, records: seq<Record>, k: nat)
    requires k < |records|
    ensures Run(o, records).results[k] == Step(o, CacheBefore(o, records, k), records[k], Now(records, k)).1
    decreases |records|
  {
    hide Step;
    var n := |records| - 1;
    if k < n {
      ResultAt(o, records[..n], k);
      assert records[..n][..k] == records[..k];
    }
  }

  lemma {:induction false} UsageAt(o: Options, records: seq<Record>, k: nat)
    requires k < |records| && Raws(records[k]) != []
    ensures Run(o, records).results[k] == UsageOf(o, records[k], HitOf(o, records, k))
  {
    hide Raws, Hit, UsageOf, Run, WriteAll, Valid;
    ResultAt(o, records, k);
  }

  // ---- token accounting ----

  /** Every looked-up index is at most the last valid breakpoint, so its tokens are covered. */
  lemma WindowIsCovered(o: Options, r: Record, i: nat)
    requires i < |Raws(r)| && InWindow(Valid(o, r), o.lookback, i)
    ensures Valid(o, r) != [] && TokensAt(o, r, i) <= BreakpointTokens(o, r) <= TotalTokens(o, r)
  {
    hide Raws, TokensAt;
    var valid := Valid(o, r);
    hide Valid;
    var b :| b in valid && b.index - o.lookback <= i <= b.index;
    var last := valid[|valid| - 1];
    assert last in valid;
    var j :| 0 <= j < |valid| && valid[j] == b;
    assert Indexes(valid)[j] <= Indexes(valid)[|valid| - 1];
    TokensAreOrdered(o, r, i, last.index);
    TokensAreOrdered(o, r, last.index, |Raws(r)| - 1);
  }

  lemma TokensAreOrdered(o: Options, r: Record, i: nat, j: nat)
    requires i <= j < |Raws(r)|
    ensures TokensAt(o, r, i) <= TokensAt(o, r, j)
  {
    if i < j {
      LaterIsLonger(o, r, i, j);
    }
  }

  lemma CoverageIsPartial(o: Options, r: Record)
    requires Raws(r) != []
    ensures BreakpointTokens(o, r) <= TotalTokens(o, r)
  {
    var valid := Valid(o, r);
    hide Raws, TokensAt, Valid;
    if valid != [] {
      assert valid[|valid| - 1] in valid;
      TokensAreOrdered(o, r, valid[|valid| - 1].index, |Raws(r)| - 1);
    }
  }

  lemma HitIsFound(o: Options, cache: Cache, r: Record, now: int)
    ensures
      var hit := Hit(o, cache, r, now);
      hit >= 0 ==> Found(o, cache, r, now, hit)
    ensures forall i {:trigger Found(o, cache, r, now, i)} ::
      Hit(o, cache, r, now) < i < |Raws(r)| ==> !Found(o, cache, r, now, i)
  {
    hide Found, Raws;
    forall i | Hit(o, cache, r, now) < i < |Raws(r)|
      ensures !Found(o, cache, r, now, i)
    {
      assert i !in Founds(o, cache, r, now);
    }
  }

  /** Conservation: what is read, created and sent as input adds up to the whole prompt. */
  lemma {:induction false} TokensAreConserved(o: Options, records: seq<Record>, k: nat)
    requires k < |records| && Raws(records[k]) != []
    ensures
      var u := Run(o, records).results[k];
      u.read + u.create + u.input == InputFloor(o, records[k]) + TotalTokens(o, records[k])
  {
    var r := records[k];
    hide Raws, Valid, TokensAt, Hit, Run, BreakpointTokens, TotalTokens;
    UsageAt(o, records, k);
    CoverageIsPartial(o, r);
    HitIsFound(o, CacheBefore(o, records, k), r, Now(records, k));
    if HitOf(o, records, k) >= 0 {
      WindowIsCovered(o, r, HitOf(o, records, k));
    }
  }

  // ---- soundness of a hit ----

  /** Two requests agree on model, tool_choice, thinking and blocks 0 .. i. */
  ghost predicate SamePrefix(a: Record, b: Record, i: nat) {
    && i < |Raws(a)| && i < |Raws(b)|
    && a.request.ns == b.request.ns
    && Values(Raws(a)[..i + 1]) == Values(Raws(b)[..i + 1])
  }

  lemma SameDigest(a: Record, i: nat, b: Record, j: nat)
    requires i < |Raws(a)| && j < |Raws(b)|
    ensures DigestAt(a, i) == DigestAt(b, j) <==> i == j && SamePrefix(a, b, i)
  {
    DigestIsExact(a.request.ns, Raws(a)[..i + 1], b.request.ns, Raws(b)[..j + 1]);
    assert |Values(Raws(a)[..i + 1])| == i + 1 && |Values(Raws(b)[..j + 1])| == j + 1;
  }

  /** Request r wrote a cache entry for breakpoint b. */
  ghost predicate Wrote(o: Options, r: Record, b: Breakpoint) {
    r.success && b in Valid(o, r)
  }

  ghost predicate HitsDigest(o: Options, records: seq<Record>, t: nat, d: Digest)
    requires t < |records|
  {
    HitOf(o, records, t) >= 0 && DigestAt(records[t], HitOf(o, records, t)) == d
  }

  /** Request w wrote the entry, and request t (w itself or a later hit) set its expiry. */
  ghost predicate Origin(o: Options, records: seq<Record>, d: Digest, e: CacheEntry, w: nat, t: nat, b: Breakpoint) {
    && w <= t < |records|
    && Wrote(o, records[w], b)
    && DigestAt(records[w], b.index) == d
    && e.ttl == b.ttl
    && e.expiresAt == Now(records, t) + b.ttl * SECOND
    && (t == w || HitsDigest(o, records, t, d))
  }

  ghost predicate Justified(o: Options, records: seq<Record>, d: Digest, e: CacheEntry) {
    exists w: nat, t: nat, b: Breakpoint :: Origin(o, records, d, e, w, t, b)
  }

  /** An entry after the writes of a request is one of them or was there before. */
  lemma {:induction false} WriteAllMeaning(o: Options, cache: Cache, r: Record, now: int, bps: seq<Breakpoint>)
    requires forall b :: b in bps ==> b.index < |Raws(r)|
    ensures forall d :: d in WriteAll(o, cache, r, now, bps) <==>
      d in cache || exists b :: b in bps && DigestAt(r, b.index) == d
    ensures forall d :: d in WriteAll(o, cache, r, now, bps) ==>
      var e := WriteAll(o, cache, r, now, bps)[d];
      (d in cache && e == cache[d]) ||
      exists b :: b in bps && DigestAt(r, b.index) == d && e.ttl == b.ttl && e.expiresAt == now + b.ttl * SECOND
  {
    hide Raws, DigestAt, TokensAt;
    if bps != [] {
      var n := |bps| - 1;
      WriteAllMeaning(o, cache, r, now, bps[..n]);
      assert forall b :: b in bps <==> b in bps[..n] || b == bps[n];
    }
  }

  /** Of the breakpoints of one prefix, the last one makes its entry, from its own tokens and TTL;
      every other entry stays as it was. */
  lemma {:induction false} LastWriteWins(o: Options, cache: Cache, r: Record, now: int, bps: seq<Breakpoint>, k: nat)
    requires forall b :: b in bps ==> b.index < |Raws(r)|
    requires k < |bps|
    requires forall j {:trigger bps[j]} :: k < j < |bps| ==> DigestAt(r, bps[j].index) != DigestAt(r, bps[k].index)
    ensures DigestAt(r, bps[k].index) in WriteAll(o, cache, r, now, bps)
    ensures WriteAll(o, cache, r, now, bps)[DigestAt(r, bps[k].index)]
      == CacheEntry(TokensAt(o, r, bps[k].index), now + bps[k].ttl * SECOND, bps[k].ttl)
    ensures forall d :: d in cache && (forall b :: b in bps ==> DigestAt(r, b.index) != d) ==>
      d in WriteAll(o, cache, r, now, bps) && WriteAll(o, cache, r, now, bps)[d] == cache[d]
    decreases |bps|
  {
    hide Raws, DigestAt, TokensAt;
    var n := |bps| - 1;
    assert forall b :: b in bps <==> b in bps[..n] || b == bps[n];
    if k < n {
      assert bps[n] in bps;
      LastWriteWins(o, cache, r, now, bps[..n], k);
    } else {
      OthersStay(o, cache, r, now, bps[..n]);
    }
  }

  lemma {:induction false} OthersStay(o: Options, cache: Cache, r: Record, now: int, bps: seq<Breakpoint>)
    requires forall b :: b in bps ==> b.index < |Raws(r)|
    ensures forall d :: d in cache && (forall b :: b in bps ==> DigestAt(r, b.index) != d) ==>
      d in WriteAll(o, cache, r, now, bps) && WriteAll(o, cache, r, now, bps)[d] == cache[d]
    decreases |bps|
  {
    hide Raws, DigestAt, TokensAt;
    if bps != [] {
      var n := |bps| - 1;
      OthersStay(o, cache, r, now, bps[..n]);
      assert forall b :: b in bps <==> b in bps[..n] || b == bps[n];
    }
  }

  lemma OriginExtends(o: Options, records: seq<Record>, d: Digest, e: CacheEntry)
    requires records != [] && Justified(o, records[..|records| - 1], d, e)
    ensures Justified(o, records, d, e)
  {
    hide Run, Hit, Raws, DigestAt, Valid;
    var before := records[..|records| - 1];
    var w: nat, t: nat, b: Breakpoint :| Origin(o, before, d, e, w, t, b);
    assert before[..t] == records[..t];
    assert HitOf(o, before, t) == HitOf(o, records, t);
    assert Origin(o, records, d, e, w, t, b);
  }

  ghost predicate AllJustified(o: Options, records: seq<Record>) {
    forall d :: d in Run(o, records).cache ==> Justified(o, records, d, Run(o, records).cache[d])
  }

  lemma {:induction false} CacheIsJustified(o: Options, records: seq<Record>)
    ensures AllJustified(o, records)
  {
    hide Step, Justified;
    if records != [] {
      CacheIsJustified(o, records[..|records| - 1]);
      forall d | d in Run(o, records).cache
        ensures Justified(o, records, d, Run(o, records).cache[d])
      {
        StepIsJustified(o, records, d);
      }
    }
  }

  lemma {:induction false} RunStep(o: Options, records: seq<Record>)
    requires records != []
    ensures
      var k := |records| - 1;
      Run(o, records).cache == Step(o, CacheBefore(o, records, k), records[k], Now(records, k)).0
  {
    hide Step;
  }

  /** The cache after looking up and refreshing, before any write. */
  function Refreshed(o: Options, cache: Cache, r: Record, now: int): Cache
    requires Raws(r) != []
  {
    var hit := Hit(o, cache, r, now);
    if hit >= 0 then Refresh(cache, DigestAt(r, hit), now) else cache
  }

  /** Where the entries after one request come from. */
  lemma StepMeaning(o: Options, cache: Cache, r: Record, now: int, d: Digest)
    requires d in Step(o, cache, r, now).0
    ensures
      var e := Step(o, cache, r, now).0[d];
      || (d in cache && e == cache[d])
      || (Hit(o, cache, r, now) >= 0 && d == DigestAt(r, Hit(o, cache, r, now)) && d in cache &&
          e == cache[d].(expiresAt := now + cache[d].ttl * SECOND))
      || (exists b ::
            Wrote(o, r, b) && DigestAt(r, b.index) == d && e.ttl == b.ttl && e.expiresAt == now + b.ttl * SECOND)
  {
    hide Hit, Raws, DigestAt, Valid, WriteAll, UsageOf;
    if Raws(r) != [] {
      WriteAllMeaning(o, Refreshed(o, cache, r, now), r, now, Valid(o, r));
    }
  }

  lemma {:induction false} StepIsJustified(o: Options, records: seq<Record>, d: Digest)
    requires records != [] && AllJustified(o, records[..|records| - 1]) && d in Run(o, records).cache
    ensures Justified(o, records, d, Run(o, records).cache[d])
  {
    hide Run, Hit, Raws, DigestAt, Valid, WriteAll, UsageOf, Step, Refresh;
    var k := |records| - 1;
    var r, now, e := records[k], Now(records, k), Run(o, records).cache[d];
    var before := CacheBefore(o, records, k);
    RunStep(o, records);
    StepMeaning(o, before, r, now, d);
    assert before == Run(o, records[..k]).cache;
    if d in before && e == before[d] {
      OriginExtends(o, records, d, e);
    } else if HitsDigest(o, records, k, d) && d in before
      && e == before[d].(expiresAt := now + before[d].ttl * SECOND) {
      RefreshIsJustified(o, records, d, e);
    } else {
      var b :| Wrote(o, r, b) && DigestAt(r, b.index) == d && e.ttl == b.ttl && e.expiresAt == now + b.ttl * SECOND;
      assert Origin(o, records, d, e, k, k, b);
    }
  }

  lemma RefreshIsJustified(o: Options, records: seq<Record>, d: Digest, e: CacheEntry)
    requires records != [] && HitsDigest(o, records, |records| - 1, d)
    requires
      var k := |records| - 1;
      var before := CacheBefore(o, records, k);
      d in before && Justified(o, records[..k], d, before[d]) &&
      e == before[d].(expiresAt := Now(records, k) + before[d].ttl * SECOND)
    ensures Justified(o, records, d, e)
  {
    hide Run, Hit, Raws, DigestAt, Valid;
    var k := |records| - 1;
    var before := CacheBefore(o, records, k)[d];
    var w: nat, t: nat, b: Breakpoint :| Origin(o, records[..k], d, before, w, t, b);
    assert Origin(o, records, d, e, w, k, b);
  }

  /** The evidence behind a hit of request k at index i: an earlier successful request w with the
      same prefix placed breakpoint b exactly there, and request t kept it alive until now. */
  ghost predicate Evidence(o: Options, records: seq<Record>, k: nat, i: nat, w: nat, t: nat, b: Breakpoint)
    requires k < |records|
  {
    && w <= t < k
    && Wrote(o, records[w], b) && b.index == i
    && SamePrefix(records[w], records[k], i)
    && Now(records, k) < Now(records, t) + b.ttl * SECOND
    && (t == w || (HitOf(o, records, t) == i && SamePrefix(records[t], records[k], i)))
  }

  /** What is reported as a hit is one. */
  lemma {:induction false} ReportedHit(o: Options, records: seq<Record>, k: nat)
    requires k < |records|
    ensures Run(o, records).results[k].hit <==> HitOf(o, records, k) >= 0
  {
    hide Raws, Hit, Run, WriteAll, Valid, TokensAt, BreakpointTokens, TotalTokens;
    ResultAt(o, records, k);
  }

  /** Every reported hit has evidence, and no longer prefix in the lookback windows is live. */
  lemma {:induction false} HitIsSound(o: Options, records: seq<Record>, k: nat)
    requires k < |records| && Run(o, records).results[k].hit
    ensures HitOf(o, records, k) >= 0 && InWindow(Valid(o, records[k]), o.lookback, HitOf(o, records, k))
    ensures exists w: nat, t: nat, b: Breakpoint :: Evidence(o, records, k, HitOf(o, records, k), w, t, b)
    ensures forall j ::
      HitOf(o, records, k) < j < |Raws(records[k])| && InWindow(Valid(o, records[k]), o.lookback, j) ==>
      !Live(CacheBefore(o, records, k), DigestAt(records[k], j), Now(records, k))
  {
    ReportedHit(o, records, k);
    var r, i := records[k], HitOf(o, records, k);
    HitIsFound(o, CacheBefore(o, records, k), r, Now(records, k));
    hide Run, Hit, Raws, DigestAt, Valid, InWindow, Live;
    HitHasEvidence(o, records, k);
    forall j | i < j < |Raws(r)| && InWindow(Valid(o, r), o.lookback, j)
      ensures !Live(CacheBefore(o, records, k), DigestAt(r, j), Now(records, k))
    {
      assert !Found(o, CacheBefore(o, records, k), r, Now(records, k), j);
    }
  }

  lemma HitHasEvidence(o: Options, records: seq<Record>, k: nat)
    requires k < |records| && HitOf(o, records, k) >= 0
    ensures exists w: nat, t: nat, b: Breakpoint :: Evidence(o, records, k, HitOf(o, records, k), w, t, b)
  {
    hide Run, Hit, Raws, DigestAt, Valid, InWindow;
    var r, i := records[k], HitOf(o, records, k);
    var past := records[..k];
    HitIsFound(o, CacheBefore(o, records, k), r, Now(records, k));
    CacheIsJustified(o, past);
    var d := DigestAt(r, i);
    var e := CacheBefore(o, records, k)[d];
    var w: nat, t: nat, b: Breakpoint :| Origin(o, past, d, e, w, t, b);
    SameDigest(records[w], b.index, r, i);
    assert past[..t] == records[..t];
    assert HitOf(o, past, t) == HitOf(o, records, t);
    if t != w {
      SameDigest(records[t], HitOf(o, records, t), r, i);
    }
    assert Evidence(o, records, k, i, w, t, b);
  }

  /** Conversely, a miss means that nothing in the lookback windows is live. */
  lemma {:induction false} MissIsSound(o: Options, records: seq<Record>, k: nat)
    requires k < |records| && !Run(o, records).results[k].hit
    ensures forall j :: 0 <= j < |Raws(records[k])| && InWindow(Valid(o, records[k]), o.lookback, j) ==>
      !Live(CacheBefore(o, records, k), DigestAt(records[k], j), Now(records, k))
  {
    ReportedHit(o, records, k);
    HitIsFound(o, CacheBefore(o, records, k), records[k], Now(records, k));
    hide Run, Hit, Raws, DigestAt, Valid, InWindow, Live;
    forall j | 0 <= j < |Raws(records[k])| && InWindow(Valid(o, records[k]), o.lookback, j)
      ensures !Live(CacheBefore(o, records, k), DigestAt(records[k], j), Now(records, k))
    {
      assert !Found(o, CacheBefore(o, records, k), records[k], Now(records, k), j);
    }
  }

  // ---- a wider lookback window ----

  /** Times never go back, and the trace is over before any entry written in it could expire. */
  ghost predicate ShortTrace(o: Options, records: seq<Record>) {
    && (forall i, j :: 0 <= i <= j < |records| ==> Now(records, i) <= Now(records, j))
    && (forall i, b :: 0 <= i < |records| && b in Valid(o, records[i]) ==>
         Now(records, |records| - 1) - Now(records, 0) < b.ttl * SECOND)
  }

  lemma ValidIgnoresLookback(o: Options, lookback: int, r: Record)
    ensures Valid(o, r) == Valid(o.(lookback := lookback), r)
    ensures forall i :: 0 <= i < |Raws(r)| ==> TokensAt(o, r, i) == TokensAt(o.(lookback := lookback), r, i)
    ensures BreakpointTokens(o, r) == BreakpointTokens(o.(lookback := lookback), r)
  {
    var p := o.(lookback := lookback);
    assert Chosen(o, r.request) == Chosen(p, r.request);
    ChosenIsValid(o, r.request);
    InRange(Raws(r), Chosen(o, r.request));
    LongEnoughIgnoresLookback(o, lookback, r, Chosen(o, r.request));
  }

  lemma {:induction false} LongEnoughIgnoresLookback(o: Options, lookback: int, r: Record, bps: seq<Breakpoint>)
    requires forall b :: b in bps ==> b.index < |Raws(r)|
    ensures LongEnough(o, r, bps) == LongEnough(o.(lookback := lookback), r, bps)
  {
    hide Raws, PrefixTokens, Scale;
    if bps != [] {
      assert bps[|bps| - 1] in bps;
      LongEnoughIgnoresLookback(o, lookback, r, bps[..|bps| - 1]);
    }
  }

  /** Everything the two caches have in common at the end of a prefix of a short trace. */
  ghost predicate NeverExpires(cache: Cache, start: int, end: int) {
    forall d :: d in cache ==> cache[d].expiresAt > end && start + cache[d].ttl * SECOND > end
  }

  lemma StepNeverExpires(o: Options, cache: Cache, r: Record, now: int, start: int, end: int)
    requires NeverExpires(cache, start, end) && start <= now
    requires forall b :: b in Valid(o, r) ==> end - start < b.ttl * SECOND
    ensures NeverExpires(Step(o, cache, r, now).0, start, end)
    ensures forall d :: d in Step(o, cache, r, now).0 <==>
      d in cache || (r.success && Raws(r) != [] && exists b :: b in Valid(o, r) && DigestAt(r, b.index) == d)
  {
    var hit := Hit(o, cache, r, now);
    hide Raws, Hit, DigestAt, Valid, WriteAll, UsageOf;
    if Raws(r) != [] {
      var refreshed := if hit >= 0 then Refresh(cache, DigestAt(r, hit), now) else cache;
      WriteAllMeaning(o, refreshed, r, now, Valid(o, r));
    }
  }

  lemma {:induction false} ShortTraceStart(o: Options, start: int, end: int)
    ensures Run(o, []).cache == map[] && NeverExpires(Run(o, []).cache, start, end)
  {
  }

  /** Lookback does not influence which prefixes a short trace leaves in the cache. */
  lemma {:induction false} ShortTraceCaches(o: Options, lookback: int, records: seq<Record>, k: nat)
    requires k <= |records| && records != [] && ShortTrace(o, records)
    ensures
      var a, b := CacheBefore(o, records, k), CacheBefore(o.(lookback := lookback), records, k);
      && (forall d :: d in a <==> d in b)
      && NeverExpires(a, Now(records, 0), Now(records, |records| - 1))
      && NeverExpires(b, Now(records, 0), Now(records, |records| - 1))
    decreases k
  {
    hide Run, Raws, DigestAt, Valid, Step;
    var p := o.(lookback := lookback);
    var start, end := Now(records, 0), Now(records, |records| - 1);
    if k == 0 {
      assert records[..0] == [];
      ShortTraceStart(o, start, end);
      ShortTraceStart(p, start, end);
    } else {
      var r, now := records[k - 1], Now(records, k - 1);
      ShortTraceCaches(o, lookback, records, k - 1);
      assert records[..k][..k - 1] == records[..k - 1];
      ValidIgnoresLookback(o, lookback, r);
      RunStep(o, records[..k]);
      RunStep(p, records[..k]);
      StepNeverExpires(o, CacheBefore(o, records, k - 1), r, now, start, end);
      StepNeverExpires(p, CacheBefore(p, records, k - 1), r, now, start, end);
    }
  }

  lemma {:induction false} EmptyUsage(o: Options, records: seq<Record>, k: nat)
    requires k < |records| && Raws(records[k]) == []
    ensures Run(o, records).results[k] == Usage(0, 0, 0, 0, false)
  {
    hide Raws, Hit, UsageOf, Run, WriteAll, Valid;
    ResultAt(o, records, k);
  }

  /** In a short trace every prefix found with the narrow window is found with the wide one. */
  lemma WiderLookbackFindsMore(o: Options, lookback: int, records: seq<Record>, k: nat)
    requires k < |records| && ShortTrace(o, records) && o.lookback <= lookback
    ensures HitOf(o, records, k) <= HitOf(o.(lookback := lookback), records, k)
  {
    hide Run, Hit, Raws, DigestAt, Valid;
    var p := o.(lookback := lookback);
    var r, now := records[k], Now(records, k);
    ShortTraceCaches(o, lookback, records, k);
    ValidIgnoresLookback(o, lookback, r);
    HitIsFound(o, CacheBefore(o, records, k), r, now);
    HitIsFound(p, CacheBefore(p, records, k), r, now);
    var i := HitOf(o, records, k);
    if i >= 0 {
      assert now <= Now(records, |records| - 1);
      assert Found(p, CacheBefore(p, records, k), r, now, i);
    }
  }

  /** On a short trace a wider lookback never reads less and never creates more, request by request. */
  lemma {:induction false} WiderLookbackReadsMore(o: Options, lookback: int, records: seq<Record>, k: nat)
    requires k < |records| && ShortTrace(o, records) && o.lookback <= lookback
    ensures
      var narrow, wide := Run(o, records).results[k], Run(o.(lookback := lookback), records).results[k];
      narrow.read <= wide.read && wide.create <= narrow.create
  {
    hide Run, Hit, Raws, Valid, TokensAt, BreakpointTokens, TotalTokens;
    var p := o.(lookback := lookback);
    if Raws(records[k]) == [] {
      EmptyUsage(o, records, k);
      EmptyUsage(p, records, k);
    } else {
      UsageAt(o, records, k);
      UsageAt(p, records, k);
      ValidIgnoresLookback(o, lookback, records[k]);
      WiderLookbackFindsMore(o, lookback, records, k);
      if HitOf(o, records, k) >= 0 {
        TokensAreOrdered(p, records[k], HitOf(o, records, k), HitOf(p, records, k));
      }
    }
  }

  // ---- fit_lookback ----

  function Abs(x: int): nat { if x < 0 then -x else x }

  function TotalRead(results: seq<Usage>): int {
    if results == [] then 0 else TotalRead(results[..|results| - 1]) + results[|results| - 1].read
  }

  function TotalCreate(results: seq<Usage>): int {
    if results == [] then 0 else TotalCreate(results[..|results| - 1]) + results[|results| - 1].create
  }

  /** Distance between what the replay counts with one lookback and what the trace reported. */
  function FitError(o: Options, records: seq<Record>, lookback: nat, read: int, create: int): nat {
    var results := Run(o.(strategy := Observed, lookback := lookback), records).results;
    Abs(TotalRead(results) - read) + Abs(TotalCreate(results) - create)
  }

  method Totals(results: seq<Usage>) returns (read: int, create: int)
    ensures read == TotalRead(results) && create == TotalCreate(results)
  {
    read, create := 0, 0;
    for k := 0 to |results|
      invariant read == TotalRead(results[..k]) && create == TotalCreate(results[..k])
    {
      assert results[..k + 1][..k] == results[..k];
      read, create := read + results[k].read, create + results[k].create;
    }
    assert results[..|results|] == results;
  }

  /** The smallest lookback in 0 .. maxLookback whose replay is closest to the reported usage. */
  method FitLookback(o: Options, records: seq<Record>, maxLookback: nat, read: int, create: int) returns (best: nat)
    ensures best <= maxLookback
    ensures forall l :: 0 <= l <= maxLookback ==>
      FitError(o, records, best, read, create) <= FitError(o, records, l, read, create)
    ensures forall l :: 0 <= l < best ==>
      FitError(o, records, best, read, create) < FitError(o, records, l, read, create)
  {
    hide Run;
    best := 0;
    var bestError: Option<nat> := None;
    for l := 0 to maxLookback + 1
      invariant bestError == if l == 0 then None else Some(FitError(o, records, best, read, create))
      invariant l > 0 ==> best < l
      invariant l == 0 ==> best == 0
      invariant forall m :: 0 <= m < l ==>
        FitError(o, records, best, read, create) <= FitError(o, records, m, read, create)
      invariant forall m :: 0 <= m < best ==>
        FitError(o, records, best, read, create) < FitError(o, records, m, read, create)
    {
      var _, results := Simulate(o.(strategy := Observed, lookback := l), records);
      var r, c := Totals(results);
      var error := Abs(r - read) + Abs(c - create);
      assert error == FitError(o, records, l, read, create);
      if bestError == None || error < bestError.value {
        best, bestError := l, Some(error);
      }
    }
  }
}
