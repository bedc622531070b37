/** The prompt-cache replay simulator: lookup, refresh, accounting and writes over a whole trace
    (scripts/dev/replay_anthropic_cache.py). */
module CacheReplay {
  import opened Prelude
  import opened CachePrefix
  import opened CacheBreakpoints

  /** Times are in microseconds, TTLs in seconds. */
  const SECOND: int := 1_000_000
  /** Replacement clock for records without a capture time. */
  const CLOCK_START: int := 1_767_225_600 * SECOND

  /** One trace record; `minTokens` is the minimum already resolved for its model. */
  datatype Record = Record(
    at: Option<int>, request: Request, success: bool, minTokens: int,
    actualRead: int, actualCreate: int, actualInput: int)

  datatype Options = Options(strategy: Strategy, lookback: int, maxBreakpoints: int, defaultTtl: nat, calibrate: bool)

  datatype CacheEntry = CacheEntry(tokens: nat, expiresAt: int, ttl: nat)
  type Cache = map<Digest, CacheEntry>

  datatype Usage = Usage(read: int, create: int, input: int, breakpoints: nat, hit: bool)
  datatype Sim = Sim(cache: Cache, results: seq<Usage>)

  function Now(records: seq<Record>, k: nat): int
    requires k < |records|
  {
    records[k].at.GetOr(CLOCK_START + k * SECOND)
  }

  // ---- one request, as a function of its own contents ----

  function Raws(r: Record): seq<Raw> { BlocksOf(r.request) }

  function RecordScale(o: Options, r: Record): real {
    Scale(Raws(r), r.actualRead + r.actualCreate, o.calibrate)
  }

  function TokensAt(o: Options, r: Record, i: nat): nat
    requires i < |Raws(r)|
  {
    PrefixTokens(Raws(r)[..i + 1], RecordScale(o, r))
  }

  function DigestAt(r: Record, i: nat): Digest
    requires i < |Raws(r)|
  {
    PrefixDigest(r.request.ns, Raws(r)[..i + 1])
  }

  function At(xs: seq<nat>, ttl: nat): (bps: seq<Breakpoint>)
    ensures Indexes(bps) == xs
  {
    seq(|xs|, i requires 0 <= i < |xs| => Breakpoint(xs[i], ttl))
  }

  /** choose_breakpoints. */
  function Chosen(o: Options, request: Request): seq<Breakpoint> {
    var raws := BlocksOf(request);
    match o.strategy
    case NoCache => []
    case Observed => ByIndex(Marked(request, raws, o.defaultTtl), |raws|)
    case Automatic => if raws == [] then [] else [Breakpoint(|raws| - 1, Ttl(request.control, o.defaultTtl))]
    case Tail => At(TailIndexes(raws, o.maxBreakpoints), o.defaultTtl)
    case Spread => At(SpreadIndexes(raws, o.maxBreakpoints), o.defaultTtl)
  }

  lemma ChosenIsValid(o: Options, request: Request)
    ensures Generated(BlocksOf(request), Indexes(Chosen(o, request)))
  {
    hide BlocksOf, TailIndexes, SpreadIndexes, Marked;
    match o.strategy
    case Observed => ByIndexIsGenerated(Marked(request, BlocksOf(request), o.defaultTtl), BlocksOf(request));
    case Tail => GeneratedStrategiesAreValid(request, o.maxBreakpoints);
    case Spread => GeneratedStrategiesAreValid(request, o.maxBreakpoints);
    case _ =>
  }

  lemma {:induction false} ByIndexIsGenerated(bps: seq<Breakpoint>, raws: seq<Raw>)
    ensures Generated(raws, Indexes(ByIndex(bps, |raws|)))
  {
    ByIndexMeaning(bps, |raws|);
    var out := ByIndex(bps, |raws|);
    forall x | x in Indexes(out)
      ensures x < |raws|
    {
      var i :| 0 <= i < |out| && Indexes(out)[i] == x;
      assert out[i] in out;
    }
  }

  /** Breakpoints whose prefix is long enough to be cached. */
  function LongEnough(o: Options, r: Record, bps: seq<Breakpoint>): (out: seq<Breakpoint>)
    requires forall b :: b in bps ==> b.index < |Raws(r)|
    ensures forall b :: b in out <==> b in bps && TokensAt(o, r, b.index) >= r.minTokens
  {
    if bps == [] then []
    else
      var before, b := LongEnough(o, r, bps[..|bps| - 1]), bps[|bps| - 1];
      assert forall c :: c in bps <==> c in bps[..|bps| - 1] || c == b;
      if TokensAt(o, r, b.index) >= r.minTokens then before + [b] else before
  }

  lemma {:induction false} LongEnoughKeepsOrder(o: Options, r: Record, bps: seq<Breakpoint>)
    requires Generated(Raws(r), Indexes(bps))
    requires forall b :: b in bps ==> b.index < |Raws(r)|
    ensures Generated(Raws(r), Indexes(LongEnough(o, r, bps)))
  {
    hide Raws, TokensAt;
    if bps != [] {
      var n := |bps| - 1;
      assert Indexes(bps[..n]) == Indexes(bps)[..n];
      assert bps[n] in bps;
      LongEnoughKeepsOrder(o, r, bps[..n]);
      AppendKeepsOrder(Raws(r), bps, LongEnough(o, r, bps[..n]));
    }
  }

  lemma AppendKeepsOrder(raws: seq<Raw>, bps: seq<Breakpoint>, kept: seq<Breakpoint>)
    requires bps != [] && Generated(raws, Indexes(bps)) && Generated(raws, Indexes(kept))
    requires forall b :: b in kept ==> b in bps[..|bps| - 1]
    ensures Generated(raws, Indexes(kept + [bps[|bps| - 1]]))
  {
    var n := |bps| - 1;
    forall x | x in Indexes(kept)
      ensures x < bps[n].index
    {
      var i :| 0 <= i < |kept| && Indexes(kept)[i] == x;
      assert kept[i] in kept;
      EarlierIsLower(bps, kept[i]);
    }
    ConcatIsIncreasing(Indexes(kept), [bps[n].index]);
    assert Indexes(bps)[n] in Indexes(bps);
    IndexesAppend(kept, bps[n]);
  }

  lemma EarlierIsLower(bps: seq<Breakpoint>, b: Breakpoint)
    requires bps != [] && Increasing(Indexes(bps)) && b in bps[..|bps| - 1]
    ensures b.index < bps[|bps| - 1].index
  {
    var n := |bps| - 1;
    var j :| 0 <= j < n && bps[j] == b;
    assert Indexes(bps)[j] < Indexes(bps)[n];
  }

  lemma IndexesAppend(bps: seq<Breakpoint>, b: Breakpoint)
    ensures Indexes(bps + [b]) == Indexes(bps) + [b.index]
  {
  }

  lemma InRange(raws: seq<Raw>, bps: seq<Breakpoint>)
    requires Generated(raws, Indexes(bps))
    ensures forall b :: b in bps ==> b.index < |raws|
  {
    forall b | b in bps
      ensures b.index < |raws|
    {
      var i :| 0 <= i < |bps| && bps[i] == b;
      assert Indexes(bps)[i] in Indexes(bps);
    }
  }

  function Valid(o: Options, r: Record): (bps: seq<Breakpoint>)
    ensures Generated(Raws(r), Indexes(bps))
    ensures forall b :: b in bps ==> b.index < |Raws(r)|
  {
    ChosenIsValid(o, r.request);
    InRange(Raws(r), Chosen(o, r.request));
    LongEnoughKeepsOrder(o, r, Chosen(o, r.request));
    InRange(Raws(r), LongEnough(o, r, Chosen(o, r.request)));
    LongEnough(o, r, Chosen(o, r.request))
  }

  /** Index i is looked up: it lies in the lookback window of some breakpoint. */
  predicate InWindow(bps: seq<Breakpoint>, lookback: int, i: nat) {
    exists b :: b in bps && b.index - lookback <= i <= b.index
  }

  // ---- one request against a cache ----

  predicate Live(cache: Cache, digest: Digest, now: int) {
    digest in cache && cache[digest].expiresAt > now
  }

  predicate Found(o: Options, cache: Cache, r: Record, now: int, i: nat)
    requires i < |Raws(r)|
  {
    InWindow(Valid(o, r), o.lookback, i) && Live(cache, DigestAt(r, i), now)
  }

  function Founds(o: Options, cache: Cache, r: Record, now: int): set<nat> {
    set i | 0 <= i < |Raws(r)| && Found(o, cache, r, now, i)
  }

  /** The greatest element below n, or -1. */
  function GreatestBelow(xs: set<nat>, n: nat): (greatest: int)
    ensures -1 <= greatest < n
    ensures greatest >= 0 ==> greatest in xs
    ensures forall i :: greatest < i < n ==> i !in xs
  {
    if n == 0 then -1 else if n - 1 in xs then n - 1 else GreatestBelow(xs, n - 1)
  }

  /** The greatest index that is looked up and live, or -1. */
  function Hit(o: Options, cache: Cache, r: Record, now: int): (hit: int)
    ensures -1 <= hit < |Raws(r)|
  {
    GreatestBelow(Founds(o, cache, r, now), |Raws(r)|)
  }

  function Refresh(cache: Cache, digest: Digest, now: int): Cache {
    if digest in cache then cache[digest := cache[digest].(expiresAt := now + cache[digest].ttl * SECOND)] else cache
  }

  function WriteAll(o: Options, cache: Cache, r: Record, now: int, bps: seq<Breakpoint>): Cache
    requires forall b :: b in bps ==> b.index < |Raws(r)|
  {
    if bps == [] then cache
    else
      var b := bps[|bps| - 1];
      assert b in bps;
      WriteAll(o, cache, r, now, bps[..|bps| - 1])
        [DigestAt(r, b.index) := CacheEntry(TokensAt(o, r, b.index), now + b.ttl * SECOND, b.ttl)]
  }

  function Max(a: int, b: int): int { if a >= b then a else b }

  function InputFloor(o: Options, r: Record): int {
    if o.calibrate && r.actualRead + r.actualCreate + r.actualInput > 0 then r.actualInput else 0
  }

  /** Tokens covered by the last valid breakpoint; 0 without one. */
  function BreakpointTokens(o: Options, r: Record): nat {
    var valid := Valid(o, r);
    if valid == [] then 0
    else
      assert valid[|valid| - 1] in valid;
      TokensAt(o, r, valid[|valid| - 1].index)
  }

  function TotalTokens(o: Options, r: Record): nat {
    if Raws(r) == [] then 0 else TokensAt(o, r, |Raws(r)| - 1)
  }

  function UsageOf(o: Options, r: Record, hit: int): Usage
    requires hit < |Raws(r)|
  {
    var hitTokens := if hit >= 0 then TokensAt(o, r, hit) else 0;
    var covered := Valid(o, r) != [];
    Usage(
      hitTokens,
      if covered then Max(0, BreakpointTokens(o, r) - hitTokens) else 0,
      InputFloor(o, r) + if covered then Max(0, TotalTokens(o, r) - BreakpointTokens(o, r)) else TotalTokens(o, r),
      |Valid(o, r)|,
      hit >= 0)
  }

  function Step(o: Options, cache: Cache, r: Record, now: int): (Cache, Usage) {
    if Raws(r) == [] then (cache, Usage(0, 0, 0, 0, false))
    else
      var hit := Hit(o, cache, r, now);
      var refreshed := if hit >= 0 then Refresh(cache, DigestAt(r, hit), now) else cache;
      (if r.success then WriteAll(o, refreshed, r, now, Valid(o, r)) else refreshed, UsageOf(o, r, hit))
  }

  /** The whole replay. */
  function Run(o: Options, records: seq<Record>): (sim: Sim)
    ensures |sim.results| == |records|
  {
    if records == [] then Sim(map[], [])
    else
      var k := |records| - 1;
      var before := Run(o, records[..k]);
      var (cache, usage) := Step(o, before.cache, records[k], Now(records, k));
      Sim(cache, before.results + [usage])
  }

  // ---- the program ----

  method ChooseBreakpoints(o: Options, request: Request, blocks: seq<Block>, ghost raws: seq<Raw>)
      returns (bps: seq<Breakpoint>)
    requires raws == BlocksOf(request) && raws != [] && Represents(blocks, raws)
    ensures bps == Chosen(o, request)
  {
    hide BlocksOf;
    match o.strategy
    case NoCache =>
      bps := [];
    case Observed =>
      bps := ObservedBreakpoints(request, blocks, o.defaultTtl, raws);
    case Automatic =>
      bps := [Breakpoint(blocks[|blocks| - 1].index, Ttl(request.control, o.defaultTtl))];
    case Tail =>
      bps := TailBreakpoints(blocks, o.maxBreakpoints, o.defaultTtl, raws);
    case Spread =>
      bps := SpreadBreakpoints(blocks, o.maxBreakpoints, o.defaultTtl, raws);
  }

  method ObservedBreakpoints(request: Request, blocks: seq<Block>, default: nat, ghost raws: seq<Raw>)
      returns (bps: seq<Breakpoint>)
    requires raws != [] && Represents(blocks, raws)
    ensures bps == ByIndex(Marked(request, raws, default), |raws|)
  {
    bps := [];
    for k := 0 to |blocks|
      invariant bps == MarkedBlocks(raws[..k], default)
    {
      assert raws[..k + 1][..k] == raws[..k];
      if blocks[k].raw.control.Some? {
        bps := bps + [Breakpoint(blocks[k].index, Ttl(blocks[k].raw.control, default))];
      }
    }
    assert raws[..|raws|] == raws;
    if request.control.Some? {
      bps := bps + [Breakpoint(blocks[|blocks| - 1].index, Ttl(request.control, default))];
    }
    assert bps == Marked(request, raws, default);
    bps := DedupeBreakpoints(bps, |blocks|);
  }

  method UserIndexes(blocks: seq<Block>, ghost raws: seq<Raw>) returns (user: seq<nat>)
    requires Represents(blocks, raws)
    ensures user == UserMessages(raws)
  {
    user := [];
    for k := 0 to |blocks|
      invariant user == UserMessages(raws[..k])
    {
      assert raws[..k + 1][..k] == raws[..k];
      if blocks[k].raw.value.scope == Messages && blocks[k].raw.value.role == "user" {
        user := user + [blocks[k].index];
      }
    }
    assert raws[..|raws|] == raws;
  }

  method TailBreakpoints(blocks: seq<Block>, max: int, default: nat, ghost raws: seq<Raw>)
      returns (bps: seq<Breakpoint>)
    requires Represents(blocks, raws)
    ensures bps == At(TailIndexes(raws, max), default)
  {
    var tools := LastIndex(blocks, Tools, raws);
    var system := LastIndex(blocks, System, raws);
    var messages := LastIndex(blocks, Messages, raws);
    var unique := DedupeIndexes(tools + system + messages);
    bps := At(LastSlice(unique, max), default);
  }

  method SpreadBreakpoints(blocks: seq<Block>, max: int, default: nat, ghost raws: seq<Raw>)
      returns (bps: seq<Breakpoint>)
    requires Represents(blocks, raws)
    ensures bps == At(SpreadIndexes(raws, max), default)
  {
    var tools := LastIndex(blocks, Tools, raws);
    var system := LastIndex(blocks, System, raws);
    var heads := DedupeIndexes(tools + system);
    var user := UserIndexes(blocks, raws);
    var spaced := EvenlySpaced(user, Max(0, max - |heads|));
    var unique := DedupeIndexes(tools + system + spaced);
    bps := At(LastSlice(unique, max), default);
  }

  /** The last index of a scope, as a list of at most one element. */
  method LastIndex(blocks: seq<Block>, scope: Scope, ghost raws: seq<Raw>) returns (last: seq<nat>)
    requires Represents(blocks, raws)
    ensures last == Singleton(Last(raws, scope))
  {
    last := [];
    for k := 0 to |blocks|
      invariant last == Singleton(Last(raws[..k], scope))
    {
      assert raws[..k + 1][..k] == raws[..k];
      if blocks[k].raw.value.scope == scope {
        last := [blocks[k].index];
      }
    }
    assert raws[..|raws|] == raws;
  }

  function Range(start: nat, end: int): (r: set<nat>)
    ensures forall i: nat :: i in r <==> start <= i < end
    decreases end - start
  {
    if start >= end then {} else {start} + Range(start + 1, end)
  }

  method CheckIndexes(bps: seq<Breakpoint>, n: nat, lookback: int) returns (indexes: set<nat>)
    ensures forall i: nat :: i in indexes <==> i < n && InWindow(bps, lookback, i)
  {
    indexes := {};
    for k := 0 to |bps|
      invariant forall i: nat :: i in indexes <==> i < n && InWindow(bps[..k], lookback, i)
    {
      var b := bps[k];
      var start := Max(0, b.index - lookback);
      var end := if b.index < n - 1 then b.index else n - 1;
      assert forall c :: c in bps[..k + 1] <==> c in bps[..k] || c == b;
      indexes := indexes + Range(start, end + 1);
    }
    assert bps[..|bps|] == bps;
  }

  /** The lookup loop: the last live index in ascending order whose tokens do not fall. */
  method Lookup(o: Options, cache: Cache, r: Record, now: int, blocks: seq<Block>, indexes: set<nat>)
      returns (hit: int, hitTokens: nat)
    requires Prepared(o, r, blocks)
    requires forall i: nat :: i in indexes <==> i < |blocks| && InWindow(Valid(o, r), o.lookback, i)
    ensures hit == Hit(o, cache, r, now)
    ensures hit >= 0 ==> Live(cache, DigestAt(r, hit), now)
    ensures hitTokens == if hit >= 0 then TokensAt(o, r, hit) else 0
  {
    hide Valid, TokensAt, DigestAt, Raws, InWindow;
    hit, hitTokens := -1, 0;
    for i := 0 to |blocks|
      invariant hit == GreatestBelow(Founds(o, cache, r, now), i)
      invariant hitTokens == if hit >= 0 then TokensAt(o, r, hit) else 0
    {
      if i !in indexes {
        continue;
      }
      var digest := blocks[i].prefixHash.value;
      if digest !in cache || cache[digest].expiresAt <= now {
        continue;
      }
      if hit >= 0 { LaterIsLonger(o, r, hit, i); }
      if blocks[i].prefixTokens >= hitTokens {
        hit, hitTokens := i, blocks[i].prefixTokens;
      }
    }
  }

  lemma LaterIsLonger(o: Options, r: Record, i: nat, j: nat)
    requires i < j < |Raws(r)|
    ensures TokensAt(o, r, i) < TokensAt(o, r, j)
  {
    TokensGrow(Raws(r), i + 1, j + 1, RecordScale(o, r));
  }

  /** What assign_prefixes leaves in the blocks of a record. */
  ghost predicate Prepared(o: Options, r: Record, blocks: seq<Block>)
    reads blocks
  {
    && Represents(blocks, Raws(r))
    && forall i :: 0 <= i < |blocks| ==>
      blocks[i].prefixHash == Some(DigestAt(r, i)) && blocks[i].prefixTokens == TokensAt(o, r, i)
  }

  method Prepare(o: Options, r: Record) returns (blocks: seq<Block>)
    ensures Prepared(o, r, blocks)
  {
    blocks := BuildBlocks(r.request);
    AssignPrefixes(r.request.ns, blocks, r.actualRead + r.actualCreate, o.calibrate, Raws(r));
  }

  method ValidBreakpoints(o: Options, r: Record, blocks: seq<Block>) returns (valid: seq<Breakpoint>)
    requires Prepared(o, r, blocks) && blocks != []
    ensures valid == Valid(o, r)
  {
    var bps := ChooseBreakpoints(o, r.request, blocks, Raws(r));
    ChosenIsValid(o, r.request);
    InRange(Raws(r), bps);
    hide TokensAt, DigestAt, Chosen, BlocksOf;
    valid := [];
    for k := 0 to |bps|
      invariant valid == LongEnough(o, r, bps[..k])
    {
      assert bps[..k + 1][..k] == bps[..k];
      assert bps[k] in bps;
      if blocks[bps[k].index].prefixTokens >= r.minTokens {
        valid := valid + [bps[k]];
      }
    }
    assert bps[..|bps|] == bps;
  }

  method Write(o: Options, cache: Cache, r: Record, now: int, blocks: seq<Block>, bps: seq<Breakpoint>)
      returns (out: Cache)
    requires Prepared(o, r, blocks)
    requires forall b :: b in bps ==> b.index < |blocks|
    ensures out == WriteAll(o, cache, r, now, bps)
  {
    hide TokensAt, DigestAt, Raws;
    out := cache;
    for k := 0 to |bps|
      invariant out == WriteAll(o, cache, r, now, bps[..k])
    {
      assert bps[..k + 1][..k] == bps[..k];
      assert bps[k] in bps;
      var block := blocks[bps[k].index];
      out := out[block.prefixHash.value := CacheEntry(block.prefixTokens, now + bps[k].ttl * SECOND, bps[k].ttl)];
    }
    assert bps[..|bps|] == bps;
  }

  method ReplayRecord(o: Options, cache: Cache, r: Record, now: int) returns (out: Cache, usage: Usage)
    ensures (out, usage) == Step(o, cache, r, now)
  {
    hide Valid, TokensAt, DigestAt, Raws, Hit, WriteAll;
    var blocks := Prepare(o, r);
    if |blocks| == 0 {
      return cache, Usage(0, 0, 0, 0, false);
    }
    var valid := ValidBreakpoints(o, r, blocks);
    var indexes := CheckIndexes(valid, |blocks|, o.lookback);
    var hit, hitTokens := Lookup(o, cache, r, now, blocks, indexes);
    out := cache;
    if hit >= 0 {
      var digest := blocks[hit].prefixHash.value;
      out := out[digest := out[digest].(expiresAt := now + out[digest].ttl * SECOND)];
    }
    var lastBreakpoint := LastBreakpoint(valid);
    assert valid != [] ==> valid[|valid| - 1] in valid;
    var breakpointTokens := if lastBreakpoint >= 0 then blocks[lastBreakpoint].prefixTokens else 0;
    var total := blocks[|blocks| - 1].prefixTokens;
    var create := if lastBreakpoint >= 0 then Max(0, breakpointTokens - hitTokens) else 0;
    var input := InputFloor(o, r) + if lastBreakpoint >= 0 then Max(0, total - breakpointTokens) else total;
    usage := Usage(hitTokens, create, input, |valid|, hit >= 0);
    if r.success {
      out := Write(o, out, r, now, blocks, valid);
    }
  }

  method LastBreakpoint(bps: seq<Breakpoint>) returns (last: int)
    requires Increasing(Indexes(bps))
    ensures last == if bps == [] then -1 else bps[|bps| - 1].index
  {
    last := -1;
    for k := 0 to |bps|
      invariant last == if k == 0 then -1 else bps[k - 1].index
    {
      assert k > 0 ==> Indexes(bps)[k - 1] < Indexes(bps)[k];
      last := Max(last, bps[k].index);
    }
  }

  method Simulate(o: Options, records: seq<Record>) returns (cache: Cache, results: seq<Usage>)
    ensures Sim(cache, results) == Run(o, records)
  {
    hide Step;
    cache, results := map[], [];
    for k := 0 to |records|
      invariant Sim(cache, results) == Run(o, records[..k])
    {
      assert records[..k + 1][..k] == records[..k];
      var usage;
      cache, usage := ReplayRecord(o, cache, records[k], Now(records, k));
      results := results + [usage];
    }
    assert records[..|records|] == records;
  }
}
