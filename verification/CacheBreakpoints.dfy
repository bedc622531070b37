/** Where each replay strategy puts its cache breakpoints
    (scripts/dev/replay_anthropic_cache.py). */
module CacheBreakpoints {
  import opened Prelude
  import opened CachePrefix

  datatype Breakpoint = Breakpoint(index: nat, ttl: nat)
  datatype Strategy = NoCache | Observed | Automatic | Tail | Spread

  function Indexes(bps: seq<Breakpoint>): (xs: seq<nat>)
    ensures |xs| == |bps|
  {
    seq(|bps|, i requires 0 <= i < |bps| => bps[i].index)
  }

  // ---- evenly_spaced ----

  function CeilDiv(a: nat, b: nat): nat
    requires b > 0
  {
    (a + b - 1) / b
  }

  lemma MulBounds(d: int, b: nat)
    ensures d >= 1 ==> d * b >= b
    ensures d <= -1 ==> d * b <= 0 - b
  {
  }

  lemma DivUnique(x: nat, q: int, r: nat, b: nat)
    requires b > 0 && r < b && x == q * b + r
    ensures x / b == q
  {
    var d := x / b - q;
    assert d * b == r - x % b by {
      assert x == (x / b) * b + x % b;
    }
    MulBounds(d, b);
  }

  lemma AddMultiple(x: nat, q: nat, b: nat)
    requires b > 0
    ensures (x + q * b) / b == x / b + q
  {
    var k := x / b + q;
    assert x + q * b == k * b + x % b;
    DivUnique(x + q * b, k, x % b, b);
  }

  lemma DivMonotone(x: nat, y: nat, b: nat)
    requires b > 0 && x <= y
    ensures x / b <= y / b
  {
    var d := x / b - y / b;
    assert d * b == x - x % b - y + y % b by {
      assert x == (x / b) * b + x % b && y == (y / b) * b + y % b;
    }
    MulBounds(d, b);
  }

  lemma CeilDivStep(a: nat, n: nat, b: nat)
    requires b > 0
    ensures n / b <= CeilDiv(a + n, b) - CeilDiv(a, b) <= CeilDiv(n, b)
  {
    var q, r := n / b, n % b;
    assert n == q * b + r;
    AddMultiple(a + r + b - 1, q, b);
    AddMultiple(r + b - 1, q, b);
    DivMonotone(a + b - 1, a + r + b - 1, b);
    if r == 0 {
      DivUnique(b - 1, 0, b - 1, b);
    } else {
      AddMultiple(r - 1, 1, b);
      DivUnique(r - 1, 0, r - 1, b);
      AddMultiple(a + b - 1, 1, b);
      DivMonotone(a + r + b - 1, a + b - 1 + b, b);
    }
  }

  /** The zero-based position chosen for slot 1 .. limit. */
  function Position(slot: nat, n: nat, limit: nat): int
    requires limit > 0
  {
    CeilDiv(slot * n, limit) - 1
  }

  /** Consecutive slots differ by floor(n / limit) or ceil(n / limit). */
  lemma GapBetweenSlots(slot: nat, n: nat, limit: nat)
    requires limit > 0
    ensures n / limit <= Position(slot + 1, n, limit) - Position(slot, n, limit) <= CeilDiv(n, limit)
  {
    assert (slot + 1) * n == slot * n + n;
    CeilDivStep(slot * n, n, limit);
  }

  lemma {:induction false} PositionsGrow(s: nat, t: nat, n: nat, limit: nat)
    requires 0 < limit < n && s < t
    ensures Position(s, n, limit) < Position(t, n, limit)
    decreases t
  {
    GapBetweenSlots(t - 1, n, limit);
    DivMonotone(limit, n, limit);
    if s < t - 1 {
      PositionsGrow(s, t - 1, n, limit);
    }
  }

  lemma PositionRange(slot: nat, n: nat, limit: nat)
    requires 0 < limit < n && 1 <= slot <= limit
    ensures 0 <= Position(slot, n, limit) < n
    ensures Position(limit, n, limit) == n - 1
  {
    AddMultiple(limit - 1, n, limit);
    assert limit - 1 + n * limit == limit * n + limit - 1;
    assert (limit - 1) / limit == 0;
    assert Position(0, n, limit) == -1;
    PositionsGrow(0, slot, n, limit);
    if slot < limit {
      PositionsGrow(slot, limit, n, limit);
    }
  }

  /** What evenly_spaced selects. */
  function Spaced(indexes: seq<nat>, limit: int): seq<nat> {
    if limit <= 0 || indexes == [] then []
    else if limit >= |indexes| then indexes
    else
      seq(limit, s requires 0 <= s < limit =>
        PositionRange(s + 1, |indexes|, limit);
        indexes[Position(s + 1, |indexes|, limit)])
  }

  method EvenlySpaced(indexes: seq<nat>, limit: int) returns (selected: seq<nat>)
    ensures selected == Spaced(indexes, limit)
  {
    if limit <= 0 || |indexes| == 0 {
      return [];
    }
    if limit >= |indexes| {
      return indexes;
    }
    selected := [];
    var seenPositions: set<int> := {};
    for slot := 1 to limit + 1
      invariant |selected| == slot - 1
      invariant selected == Spaced(indexes, limit)[..slot - 1]
      invariant forall p :: p in seenPositions ==> p < Position(slot, |indexes|, limit)
    {
      var position := CeilDiv(slot * |indexes|, limit) - 1;
      PositionRange(slot, |indexes|, limit);
      position := if position < |indexes| - 1 then position else |indexes| - 1;
      position := if position > 0 then position else 0;
      PositionsGrow(slot, slot + 1, |indexes|, limit);
      if position in seenPositions {
        continue;
      }
      seenPositions := seenPositions + {position};
      selected := selected + [indexes[position]];
    }
    selected := Fill(selected, seenPositions, indexes, limit);
  }

  /** The loop that tops a short selection up with unseen positions. */
  method Fill(selected: seq<nat>, seenPositions: set<int>, indexes: seq<nat>, limit: int) returns (out: seq<nat>)
    ensures |selected| >= limit ==> out == selected
    ensures selected <= out && (|out| > |selected| ==> |out| <= limit)
  {
    out := selected;
    for position := 0 to |indexes|
      invariant |selected| >= limit ==> out == selected
      invariant selected <= out && (|out| > |selected| ==> |out| <= limit)
    {
      if |out| >= limit {
        break;
      }
      if position !in seenPositions {
        out := out + [indexes[position]];
      }
    }
  }

  /** For 0 < limit < n: exactly `limit` indexes, strictly increasing, the last one last. */
  lemma SpacedIsExact(indexes: seq<nat>, limit: int)
    requires Increasing(indexes) && 0 < limit < |indexes|
    ensures |Spaced(indexes, limit)| == limit
    ensures Spaced(indexes, limit)[limit - 1] == indexes[|indexes| - 1]
  {
    PositionRange(limit, |indexes|, limit);
  }

  lemma SpacedIsIncreasing(indexes: seq<nat>, limit: int)
    requires Increasing(indexes)
    ensures Increasing(Spaced(indexes, limit))
    ensures |Spaced(indexes, limit)| <= if limit < 0 then 0 else limit
    ensures forall x :: x in Spaced(indexes, limit) ==> x in indexes
  {
    hide Position;
    if 0 < limit < |indexes| {
      forall i, j | 0 <= i < j < limit
        ensures Spaced(indexes, limit)[i] < Spaced(indexes, limit)[j]
      {
        SpacedPair(indexes, limit, i, j);
      }
      forall k | 0 <= k < limit
        ensures Spaced(indexes, limit)[k] in indexes
      {
        PositionRange(k + 1, |indexes|, limit);
      }
    }
  }

  lemma SpacedPair(indexes: seq<nat>, limit: nat, i: nat, j: nat)
    requires Increasing(indexes) && i < j < limit < |indexes|
    ensures Spaced(indexes, limit)[i] < Spaced(indexes, limit)[j]
  {
    hide Position;
    PositionRange(i + 1, |indexes|, limit);
    PositionRange(j + 1, |indexes|, limit);
    PositionsGrow(i + 1, j + 1, |indexes|, limit);
  }

  // ---- dedupe_indexes and the negative slice ----

  /** First occurrences, in order. */
  function Unique(xs: seq<nat>): seq<nat> {
    if xs == [] then []
    else
      var before, x := Unique(xs[..|xs| - 1]), xs[|xs| - 1];
      if x in xs[..|xs| - 1] then before else before + [x]
  }

  method DedupeIndexes(indexes: seq<nat>) returns (out: seq<nat>)
    ensures out == Unique(indexes)
  {
    var seen: set<nat> := {};
    out := [];
    for k := 0 to |indexes|
      invariant out == Unique(indexes[..k])
      invariant forall x :: x in seen <==> x in indexes[..k]
    {
      assert indexes[..k + 1][..k] == indexes[..k];
      assert forall x :: x in indexes[..k + 1] <==> x in indexes[..k] || x == indexes[k];
      if indexes[k] in seen {
        continue;
      }
      seen := seen + {indexes[k]};
      out := out + [indexes[k]];
    }
    assert indexes[..|indexes|] == indexes;
  }

  lemma {:induction false} UniqueOfIncreasing(xs: seq<nat>)
    requires Increasing(xs)
    ensures Unique(xs) == xs
  {
    if xs != [] {
      UniqueOfIncreasing(xs[..|xs| - 1]);
      assert xs == xs[..|xs| - 1] + [xs[|xs| - 1]];
    }
  }

  /** Python's xs[-m:]. */
  function LastSlice(xs: seq<nat>, m: int): seq<nat> {
    if m <= 0 then xs[if -m < |xs| then -m else |xs|..]
    else xs[if m < |xs| then |xs| - m else 0..]
  }

  /** The cap of a generated strategy is respected exactly for a positive maximum, or when the
      slice was going to be empty anyway; with a maximum of 0 everything is kept. */
  lemma SliceRespectsCap(xs: seq<nat>, m: int)
    ensures |LastSlice(xs, m)| <= (if m > 0 then m else 0) <==> m >= 1 || |xs| <= -m
  {
  }

  // ---- the strategies ----

  function Last(raws: seq<Raw>, scope: Scope): (last: Option<nat>)
    ensures last.Some? ==> last.value < |raws| && raws[last.value].value.scope == scope
    ensures forall i :: 0 <= i < |raws| && raws[i].value.scope == scope ==> last.Some? && i <= last.value
  {
    if raws == [] then None
    else if raws[|raws| - 1].value.scope == scope then Some(|raws| - 1)
    else Last(raws[..|raws| - 1], scope)
  }

  function Singleton(x: Option<nat>): seq<nat> {
    if x.Some? then [x.value] else []
  }

  function UserMessages(raws: seq<Raw>): (xs: seq<nat>)
    ensures forall x :: x in xs ==> x < |raws| && raws[x].value.scope == Messages
    ensures Increasing(xs)
  {
    if raws == [] then []
    else
      var n, before := |raws| - 1, UserMessages(raws[..|raws| - 1]);
      assert forall x :: x in before ==> x < n && raws[..n][x] == raws[x];
      assert forall i :: 0 <= i < |before| ==> before[i] in before;
      if raws[n].value.scope == Messages && raws[n].value.role == "user" then before + [n] else before
  }

  function Heads(raws: seq<Raw>): seq<nat> {
    Singleton(Last(raws, Tools)) + Singleton(Last(raws, System))
  }

  function Remaining(raws: seq<Raw>, max: int): int {
    if max - |Unique(Heads(raws))| > 0 then max - |Unique(Heads(raws))| else 0
  }

  function TailIndexes(raws: seq<Raw>, max: int): seq<nat> {
    LastSlice(Unique(Heads(raws) + Singleton(Last(raws, Messages))), max)
  }

  function SpreadIndexes(raws: seq<Raw>, max: int): seq<nat> {
    LastSlice(Unique(Heads(raws) + Spaced(UserMessages(raws), Remaining(raws, max))), max)
  }

  predicate Generated(raws: seq<Raw>, xs: seq<nat>) {
    Increasing(xs) && forall x :: x in xs ==> x < |raws|
  }

  lemma HeadsAreIncreasing(raws: seq<Raw>)
    requires ScopeOrdered(raws)
    ensures Generated(raws, Heads(raws))
    ensures forall x :: x in Heads(raws) ==> raws[x].value.scope != Messages
  {
  }

  lemma ConcatIsIncreasing(a: seq<nat>, b: seq<nat>)
    requires Increasing(a) && Increasing(b)
    requires forall x, y :: x in a && y in b ==> x < y
    ensures Increasing(a + b)
  {
    var c := a + b;
    forall i, j | 0 <= i < j < |c|
      ensures c[i] < c[j]
    {
      if i < |a| <= j {
        assert c[i] in a && c[j] in b;
      }
    }
  }

  lemma SliceIsIncreasing(xs: seq<nat>, m: int)
    requires Increasing(xs)
    ensures Increasing(LastSlice(xs, m))
    ensures forall x :: x in LastSlice(xs, m) ==> x in xs
  {
  }

  lemma AllBelowMessages(raws: seq<Raw>, heads: seq<nat>, messages: seq<nat>)
    requires ScopeOrdered(raws) && Generated(raws, heads)
    requires forall x :: x in heads ==> raws[x].value.scope != Messages
    requires forall x :: x in messages ==> x < |raws| && raws[x].value.scope == Messages
    ensures forall x, y :: x in heads && y in messages ==> x < y
  {
    forall x, y | x in heads && y in messages ensures x < y {
      assert y < |raws| && Rank(raws[x].value.scope) < Rank(raws[y].value.scope);
    }
  }

  /** Appending message positions to the last tool and the last system block keeps the order. */
  lemma {:induction false} HeadsThenMessages(raws: seq<Raw>, messages: seq<nat>, max: int)
    requires ScopeOrdered(raws) && Generated(raws, messages)
    requires forall x :: x in messages ==> raws[x].value.scope == Messages
    ensures Generated(raws, LastSlice(Unique(Heads(raws) + messages), max))
    ensures max >= 1 ==> |LastSlice(Unique(Heads(raws) + messages), max)| <= max
  {
    HeadsAreIncreasing(raws);
    AllBelowMessages(raws, Heads(raws), messages);
    ConcatIsIncreasing(Heads(raws), messages);
    UniqueOfIncreasing(Heads(raws) + messages);
    SliceIsIncreasing(Heads(raws) + messages, max);
  }

  /** Tail and spread return strictly increasing valid positions, at most `max` of them. */
  lemma GeneratedStrategiesAreValid(request: Request, max: int)
    ensures Generated(BlocksOf(request), TailIndexes(BlocksOf(request), max))
    ensures Generated(BlocksOf(request), SpreadIndexes(BlocksOf(request), max))
    ensures max >= 1 ==> |TailIndexes(BlocksOf(request), max)| <= max
    ensures max >= 1 ==> |SpreadIndexes(BlocksOf(request), max)| <= max
  {
    var raws := BlocksOf(request);
    BlocksAreScopeOrdered(request);
    HeadsThenMessages(raws, Singleton(Last(raws, Messages)), max);
    SpacedIsIncreasing(UserMessages(raws), Remaining(raws, max));
    HeadsThenMessages(raws, Spaced(UserMessages(raws), Remaining(raws, max)), max);
  }

  function Present(raws: seq<Raw>, scope: Scope): nat { if Last(raws, scope).Some? then 1 else 0 }

  /** A maximum of 0 is not a cap: for every request the tail strategy then keeps a breakpoint in
      every scope that has a block, so it respects the maximum only for an empty prompt. */
  lemma ZeroMaximumIsNoCap(request: Request)
    ensures var raws := BlocksOf(request);
      && |TailIndexes(raws, 0)| == Present(raws, Tools) + Present(raws, System) + Present(raws, Messages)
      && (|TailIndexes(raws, 0)| <= 0 <==> raws == [])
  {
    BlocksAreScopeOrdered(request);
    hide BlocksOf, TailIndexes, Present;
    ZeroKeepsEveryScope(BlocksOf(request));
    SomeScopeIsPresent(BlocksOf(request));
  }

  lemma ZeroKeepsEveryScope(raws: seq<Raw>)
    requires ScopeOrdered(raws)
    ensures |TailIndexes(raws, 0)| == Present(raws, Tools) + Present(raws, System) + Present(raws, Messages)
  {
    hide Last, Increasing, ScopeOrdered, Unique;
    var heads, last := Heads(raws), Singleton(Last(raws, Messages));
    HeadsAreIncreasing(raws);
    AllBelowMessages(raws, heads, last);
    SingletonIsIncreasing(Last(raws, Messages));
    ConcatIsIncreasing(heads, last);
    UniqueOfIncreasing(heads + last);
  }

  lemma SingletonIsIncreasing(x: Option<nat>)
    ensures Increasing(Singleton(x))
  {
  }

  lemma SomeScopeIsPresent(raws: seq<Raw>)
    ensures Present(raws, Tools) + Present(raws, System) + Present(raws, Messages) == 0 <==> raws == []
  {
    if raws != [] { assert Last(raws, raws[|raws| - 1].value.scope).Some?; }
  }

  function Ttl(control: Option<Control>, default: nat): nat {
    if control.Some? then control.value.ttl.GetOr(default) else default
  }

  /** observed_breakpoints before deduplication. */
  function Marked(request: Request, raws: seq<Raw>, default: nat): (bps: seq<Breakpoint>)
    ensures forall b :: b in bps ==> b.index < |raws|
  {
    MarkedBlocks(raws, default) +
    if request.control.Some? && raws != [] then [Breakpoint(|raws| - 1, Ttl(request.control, default))] else []
  }

  function MarkedBlocks(raws: seq<Raw>, default: nat): (bps: seq<Breakpoint>)
    ensures forall b :: b in bps ==> b.index < |raws|
  {
    if raws == [] then []
    else
      var n, before := |raws| - 1, MarkedBlocks(raws[..|raws| - 1], default);
      if raws[n].control.Some? then before + [Breakpoint(n, Ttl(raws[n].control, default))] else before
  }

  /** The largest TTL among the breakpoints at one index. */
  function BestTtl(bps: seq<Breakpoint>, index: nat): Option<nat> {
    if bps == [] then None
    else
      var best, b := BestTtl(bps[..|bps| - 1], index), bps[|bps| - 1];
      if b.index == index && (best == None || b.ttl > best.value) then Some(b.ttl) else best
  }

  /** One breakpoint for every index below n that has any, in order. */
  function ByIndex(bps: seq<Breakpoint>, n: nat): seq<Breakpoint> {
    if n == 0 then []
    else
      var before, best := ByIndex(bps, n - 1), BestTtl(bps, n - 1);
      if best.Some? then before + [Breakpoint(n - 1, best.value)] else before
  }

  method DedupeBreakpoints(bps: seq<Breakpoint>, n: nat) returns (out: seq<Breakpoint>)
    requires forall b :: b in bps ==> b.index < n
    ensures out == ByIndex(bps, n)
  {
    var byIndex: map<nat, Breakpoint> := map[];
    for k := 0 to |bps|
      invariant forall i :: (i in byIndex <==> BestTtl(bps[..k], i).Some?)
      invariant forall i :: i in byIndex ==> byIndex[i] == Breakpoint(i, BestTtl(bps[..k], i).value)
    {
      var b := bps[k];
      assert bps[..k + 1][..k] == bps[..k];
      if b.index !in byIndex || b.ttl > byIndex[b.index].ttl {
        byIndex := byIndex[b.index := b];
      }
    }
    assert bps[..|bps|] == bps;
    out := [];
    for i := 0 to n
      invariant out == ByIndex(bps, i)
    {
      if i in byIndex {
        out := out + [byIndex[i]];
      }
    }
  }

  /** Deduplication keeps every marked index once, in order, with the largest TTL marked there. */
  lemma {:induction false} ByIndexMeaning(bps: seq<Breakpoint>, n: nat)
    ensures Increasing(Indexes(ByIndex(bps, n)))
    ensures forall o :: o in ByIndex(bps, n) <==> o.index < n && BestTtl(bps, o.index) == Some(o.ttl)
  {
    if n > 0 {
      ByIndexMeaning(bps, n - 1);
      var before := ByIndex(bps, n - 1);
      if BestTtl(bps, n - 1).Some? {
        assert Indexes(ByIndex(bps, n)) == Indexes(before) + [n - 1];
        forall x | x in Indexes(before)
          ensures x < n - 1
        {
          var i :| 0 <= i < |before| && Indexes(before)[i] == x;
          assert before[i] in before;
        }
        ConcatIsIncreasing(Indexes(before), [n - 1]);
      }
    }
  }

  lemma {:induction false} BestTtlMeaning(bps: seq<Breakpoint>, index: nat)
    ensures BestTtl(bps, index).Some? ==> Breakpoint(index, BestTtl(bps, index).value) in bps
    ensures forall b :: b in bps && b.index == index ==>
      BestTtl(bps, index).Some? && b.ttl <= BestTtl(bps, index).value
  {
    if bps != [] {
      var n := |bps| - 1;
      BestTtlMeaning(bps[..n], index);
      assert forall b :: b in bps <==> b in bps[..n] || b == bps[n];
    }
  }
}
