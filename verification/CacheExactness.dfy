/** Exactly what a replay reports for a request, and exactly when a prefix is found in the cache. */
module CacheExactness {
  import opened Prelude
  import opened CachePrefix
  import opened CacheBreakpoints
  import opened CacheReplay
  import opened CacheLaws

  // ---- what the cache holds ----

  ghost predicate WritesPrefix(o: Options, r: Record, d: Digest) {
    exists b :: Wrote(o, r, b) && DigestAt(r, b.index) == d
  }

  /** The breakpoint by which the request writes the prefix; there is one only. */
  ghost function MarkOf(o: Options, r: Record, d: Digest): (b: Breakpoint)
    requires WritesPrefix(o, r, d)
    ensures Wrote(o, r, b) && DigestAt(r, b.index) == d
  {
    var b :| Wrote(o, r, b) && DigestAt(r, b.index) == d;
    b
  }

  /** The greatest number below n with the property, or -1. */
  ghost function Latest(p: nat -> bool, n: nat): (t: int)
    ensures -1 <= t < n && (t >= 0 ==> p(t)) && forall v :: t < v < n ==> !p(v)
  {
    if n == 0 then -1 else if p(n - 1) then n - 1 else Latest(p, n - 1)
  }

  ghost predicate WritesAt(o: Options, records: seq<Record>, v: nat, d: Digest) {
    v < |records| && WritesPrefix(o, records[v], d)
  }

  ghost predicate UsesAt(o: Options, records: seq<Record>, v: nat, d: Digest) {
    v < |records| && (WritesPrefix(o, records[v], d) || HitsDigest(o, records, v, d))
  }

  /** The last request before n that wrote the prefix, or -1. */
  ghost function LastWrite(o: Options, records: seq<Record>, n: nat, d: Digest): int {
    Latest((v: nat) => WritesAt(o, records, v, d), n)
  }

  /** The last request before n that wrote the prefix or hit it, or -1. */
  ghost function LastUse(o: Options, records: seq<Record>, n: nat, d: Digest): int {
    Latest((v: nat) => UsesAt(o, records, v, d), n)
  }

  /** What was written was used then, at least. */
  lemma WriteIsUse(o: Options, records: seq<Record>, n: nat, d: Digest)
    ensures LastWrite(o, records, n, d) <= LastUse(o, records, n, d) < n
    ensures LastWrite(o, records, n, d) >= 0 ==> WritesAt(o, records, LastWrite(o, records, n, d), d)
  {
    hide WritesPrefix, HitsDigest;
    var w, t := LastWrite(o, records, n, d), LastUse(o, records, n, d);
    var uses := (v: nat) => UsesAt(o, records, v, d);
    assert w >= 0 ==> uses(w);
  }

  lemma MarkIsUnique(o: Options, r: Record, i: nat, j: nat)
    requires i < |Valid(o, r)| && j < |Valid(o, r)|
    requires Valid(o, r)[i] in Valid(o, r) && Valid(o, r)[j] in Valid(o, r)
    requires DigestAt(r, Valid(o, r)[i].index) == DigestAt(r, Valid(o, r)[j].index)
    ensures i == j
  {
    var valid := Valid(o, r);
    SameDigest(r, valid[i].index, r, valid[j].index);
    hide Valid, Raws, DigestAt;
    assert Indexes(valid)[i] == Indexes(valid)[j];
  }

  /** A request that writes a prefix leaves the entry of its own breakpoint, whatever was there. */
  lemma WritingSets(o: Options, cache: Cache, r: Record, now: int, d: Digest)
    requires WritesPrefix(o, r, d)
    ensures var b, after := MarkOf(o, r, d), Step(o, cache, r, now).0;
      d in after && after[d] == CacheEntry(TokensAt(o, r, b.index), now + b.ttl * SECOND, b.ttl)
  {
    hide Raws, Valid, DigestAt, TokensAt, WriteAll, Hit, UsageOf;
    var b := MarkOf(o, r, d);
    var valid := Valid(o, r);
    var k :| 0 <= k < |valid| && valid[k] == b;
    forall j | k < j < |valid| ensures DigestAt(r, valid[j].index) != DigestAt(r, valid[k].index) {
      assert valid[j] in valid;
      if DigestAt(r, valid[j].index) == DigestAt(r, valid[k].index) { MarkIsUnique(o, r, j, k); }
    }
    LastWriteWins(o, Refreshed(o, cache, r, now), r, now, valid, k);
  }

  /** One that does not leaves the entry alone, but for the expiry that a hit renews. */
  lemma NotWritingKeeps(o: Options, cache: Cache, r: Record, now: int, d: Digest)
    requires !WritesPrefix(o, r, d)
    ensures var after := Step(o, cache, r, now).0;
      && (d in after <==> d in cache)
      && (d in cache ==>
            var hits := Hit(o, cache, r, now) >= 0 && DigestAt(r, Hit(o, cache, r, now)) == d;
            after[d] == if hits then cache[d].(expiresAt := now + cache[d].ttl * SECOND) else cache[d])
  {
    hide Raws, Valid, DigestAt, TokensAt, WriteAll, Hit, UsageOf;
    if Raws(r) == [] {
      NoBlocksNoHit(o, cache, r, now);
    } else {
      var refreshed := Refreshed(o, cache, r, now);
      if r.success {
        forall b | b in Valid(o, r) ensures DigestAt(r, b.index) != d {
          assert Wrote(o, r, b);
        }
        WriteAllMeaning(o, refreshed, r, now, Valid(o, r));
        OthersStay(o, refreshed, r, now, Valid(o, r));
      }
    }
  }

  lemma NoBlocksNoHit(o: Options, cache: Cache, r: Record, now: int)
    requires Raws(r) == []
    ensures Hit(o, cache, r, now) == -1
  {
  }

  /** After n requests the cache holds exactly the prefixes that were written; each with the tokens and
      the TTL of its last write, and the expiry of its last write or hit. */
  lemma {:induction false} CacheIsExact(o: Options, records: seq<Record>, n: nat, d: Digest)
    requires n <= |records|
    ensures var cache, w := CacheBefore(o, records, n), LastWrite(o, records, n, d);
      && (d in cache <==> w >= 0)
      && (w >= 0 ==>
            && WritesAt(o, records, w, d) && 0 <= LastUse(o, records, n, d) < n
            && var b := MarkOf(o, records[w], d);
               cache[d] == CacheEntry(TokensAt(o, records[w], b.index),
                                      Now(records, LastUse(o, records, n, d)) + b.ttl * SECOND, b.ttl))
  {
    hide Raws, Valid, DigestAt, TokensAt, Step, Hit, WritesPrefix;
    WriteIsUse(o, records, n, d);
    if n == 0 {
      assert records[..0] == [];
    } else {
      var r, now, before := records[n - 1], Now(records, n - 1), CacheBefore(o, records, n - 1);
      CacheIsExact(o, records, n - 1, d);
      assert records[..n][..n - 1] == records[..n - 1];
      RunStep(o, records[..n]);
      if WritesPrefix(o, r, d) {
        WritingSets(o, before, r, now, d);
      } else {
        NotWritingKeeps(o, before, r, now, d);
        if HitsDigest(o, records, n - 1, d) { HitIsFound(o, before, r, now); }
      }
    }
  }

  // ---- what a request finds ----

  /** The prefix was written before, and its last write or hit is younger than the TTL it was last
      written with. */
  ghost predicate Alive(o: Options, records: seq<Record>, k: nat, i: nat)
    requires k < |records| && i < |Raws(records[k])|
  {
    var d := DigestAt(records[k], i);
    var w := LastWrite(o, records, k, d);
    WriteIsUse(o, records, k, d);
    w >= 0 && Now(records, k) < Now(records, LastUse(o, records, k, d)) + MarkOf(o, records[w], d).ttl * SECOND
  }

  /** A request hits the longest prefix that is alive and lies in a lookback window, and nothing if
      there is none. */
  lemma HitExactly(o: Options, records: seq<Record>, k: nat, i: nat)
    requires k < |records| && i < |Raws(records[k])|
    ensures HitOf(o, records, k) == i <==>
      && InWindow(Valid(o, records[k]), o.lookback, i) && Alive(o, records, k, i)
      && forall j :: i < j < |Raws(records[k])| && InWindow(Valid(o, records[k]), o.lookback, j) ==>
           !Alive(o, records, k, j)
  {
    hide Raws, Valid, DigestAt, TokensAt, Run, Hit, InWindow, LastWrite, LastUse;
    var cache, r, now := CacheBefore(o, records, k), records[k], Now(records, k);
    HitIsFound(o, cache, r, now);
    forall j | 0 <= j < |Raws(r)|
      ensures Found(o, cache, r, now, j) <==> InWindow(Valid(o, r), o.lookback, j) && Alive(o, records, k, j)
    {
      CacheIsExact(o, records, k, DigestAt(r, j));
    }
  }

  // ---- what it reports ----

  /** What is reported for a request with blocks: read is the hit prefix, created is what the last valid
      breakpoint covers beyond it, and input is the rest, on top of what the provider reported as input
      if the replay is calibrated to it. */
  lemma {:induction false} UsageIsExact(o: Options, records: seq<Record>, k: nat, r: Record, u: Usage, hit: int)
    requires k < |records| && r == records[k] && Raws(r) != []
    requires u == Run(o, records).results[k] && hit == HitOf(o, records, k)
    ensures (u.hit <==> hit >= 0) && u.breakpoints == |Valid(o, r)|
    ensures u.read == if hit >= 0 then PrefixTokens(Raws(r)[..hit + 1], RecordScale(o, r)) else 0
    ensures u.read + u.create == BreakpointTokens(o, r)
    ensures var reported := o.calibrate && r.actualRead + r.actualCreate + r.actualInput > 0;
      u.input == (if reported then r.actualInput else 0)
                 + PrefixTokens(Raws(r), RecordScale(o, r)) - BreakpointTokens(o, r)
  {
    hide Raws, Valid, Hit, Run, PrefixTokens, Scale, BreakpointTokens, TotalTokens;
    UsageAt(o, records, k);
    WholePrompt(o, r);
    CoverageIsPartial(o, r);
    HitIsFound(o, CacheBefore(o, records, k), r, Now(records, k));
    if HitOf(o, records, k) >= 0 { WindowIsCovered(o, r, HitOf(o, records, k)); } else { NothingCovered(o, r); }
  }

  lemma WholePrompt(o: Options, r: Record)
    requires Raws(r) != []
    ensures TotalTokens(o, r) == PrefixTokens(Raws(r), RecordScale(o, r))
  {
    hide PrefixTokens, Scale;
    assert Raws(r)[..|Raws(r)|] == Raws(r);
  }

  lemma NothingCovered(o: Options, r: Record)
    ensures Valid(o, r) == [] ==> BreakpointTokens(o, r) == 0
  {
    hide Valid;
  }

  /** That breakpoint is the last one chosen whose prefix is long enough to be cached. */
  lemma CoverageIsExact(o: Options, r: Record, b: Breakpoint)
    requires b in Chosen(o, r.request) && b.index < |Raws(r)|
    requires PrefixTokens(Raws(r)[..b.index + 1], RecordScale(o, r)) >= r.minTokens
    requires forall c :: c in Valid(o, r) ==> c.index <= b.index
    ensures BreakpointTokens(o, r) == PrefixTokens(Raws(r)[..b.index + 1], RecordScale(o, r))
  {
    var valid := Valid(o, r);
    ValidMeaning(o, r);
    hide Raws, Valid, Chosen, PrefixTokens, Scale;
    var j :| 0 <= j < |valid| && valid[j] == b;
    assert valid[|valid| - 1] in valid;
    assert Indexes(valid)[j] <= Indexes(valid)[|valid| - 1];
  }

  lemma ValidMeaning(o: Options, r: Record)
    ensures forall b :: b in Valid(o, r) <==>
      b in Chosen(o, r.request) && b.index < |Raws(r)| && TokensAt(o, r, b.index) >= r.minTokens
  {
    ChosenIsValid(o, r.request);
    InRange(Raws(r), Chosen(o, r.request));
    hide TokensAt, Chosen, Raws;
  }
}
