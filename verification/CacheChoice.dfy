/** Exactly where each strategy puts its breakpoints. */
module CacheChoice {
  import opened Prelude
  import opened CachePrefix
  import opened CacheBreakpoints
  import opened CacheReplay

  // ---- lists ----

  predicate Distinct(xs: seq<nat>) { forall i, j :: 0 <= i < j < |xs| ==> xs[i] != xs[j] }

  /** The same numbers, each once. */
  lemma {:induction false} UniqueExactly(xs: seq<nat>)
    ensures Distinct(Unique(xs)) && forall x :: x in Unique(xs) <==> x in xs
    decreases |xs|
  {
    if xs != [] {
      var n := |xs| - 1;
      UniqueExactly(xs[..n]);
      assert forall x :: x in xs <==> x in xs[..n] || x == xs[n];
      assert forall i :: 0 <= i < |Unique(xs[..n])| ==> Unique(xs[..n])[i] in Unique(xs[..n]);
    }
  }

  /** In the order they come: reading on only adds behind what is there. */
  lemma {:induction false} UniqueInOrder(xs: seq<nat>, n: nat)
    requires n <= |xs|
    ensures Unique(xs[..n]) <= Unique(xs)
    decreases |xs|
  {
    if n == |xs| {
      assert xs[..n] == xs;
    } else {
      assert xs[..|xs| - 1][..n] == xs[..n];
      UniqueInOrder(xs[..|xs| - 1], n);
    }
  }

  /** The last m of a list, or all of it if there are no more; for no positive m all but the first -m. */
  lemma LastSliceExactly(xs: seq<nat>, m: int)
    ensures xs[|xs| - |LastSlice(xs, m)|..] == LastSlice(xs, m)
    ensures m > 0 ==> |LastSlice(xs, m)| == if m < |xs| then m else |xs|
    ensures m <= 0 ==> |LastSlice(xs, m)| == if -m < |xs| then |xs| + m else 0
  {
  }

  predicate IsUserMessage(raw: Raw) { raw.value.scope == Messages && raw.value.role == "user" }

  lemma {:induction false} UserMessagesExactly(raws: seq<Raw>)
    ensures forall i: nat :: i in UserMessages(raws) <==> i < |raws| && IsUserMessage(raws[i])
    decreases |raws|
  {
    if raws != [] { UserMessagesExactly(raws[..|raws| - 1]); }
  }

  // ---- tail ----

  /** The last block of its scope. */
  predicate EndsScope(raws: seq<Raw>, i: nat) {
    i < |raws| && forall j :: i < j < |raws| ==> raws[j].value.scope != raws[i].value.scope
  }

  lemma {:induction false} LastEnds(raws: seq<Raw>, scope: Scope)
    ensures Last(raws, scope).Some? ==> EndsScope(raws, Last(raws, scope).value)
    ensures forall i: nat :: EndsScope(raws, i) && raws[i].value.scope == scope ==> Last(raws, scope) == Some(i)
    ensures Last(raws, scope) == None <==> forall i :: 0 <= i < |raws| ==> raws[i].value.scope != scope
  {
    hide Last;
  }

  function Ends(raws: seq<Raw>): seq<nat> { Heads(raws) + Singleton(Last(raws, Messages)) }

  lemma EndsExactly(request: Request)
    ensures var raws := BlocksOf(request);
      && Increasing(Ends(raws)) && Unique(Ends(raws)) == Ends(raws)
      && (forall i: nat :: i in Ends(raws) <==> EndsScope(raws, i))
  {
    var raws := BlocksOf(request);
    BlocksAreScopeOrdered(request);
    hide BlocksOf, Unique, EndsScope;
    HeadsAreIncreasing(raws);
    SingletonIsIncreasing(Last(raws, Messages));
    AllBelowMessages(raws, Heads(raws), Singleton(Last(raws, Messages)));
    ConcatIsIncreasing(Heads(raws), Singleton(Last(raws, Messages)));
    UniqueOfIncreasing(Ends(raws));
    LastEnds(raws, Tools);
    LastEnds(raws, System);
    LastEnds(raws, Messages);
    forall i: nat | EndsScope(raws, i) ensures i in Ends(raws) {
      EndIsLast(raws, i);
    }
  }

  lemma {:induction false} EndIsLast(raws: seq<Raw>, i: nat)
    requires EndsScope(raws, i)
    ensures i < |raws| && Last(raws, raws[i].value.scope) == Some(i) && i in Ends(raws)
  {
    hide Last;
  }

  /** The tail strategy marks the last block of every scope that has one; with a smaller maximum just the
      last of these. */
  lemma TailExactly(request: Request, max: int)
    requires max >= 1
    ensures var raws := BlocksOf(request);
      && (forall i :: i in TailIndexes(raws, max) ==> EndsScope(raws, i))
      && (forall i, j: nat :: i in TailIndexes(raws, max) && i <= j && EndsScope(raws, j) ==>
            j in TailIndexes(raws, max))
      && |TailIndexes(raws, max)| == if max < |Ends(raws)| then max else |Ends(raws)|
  {
    var raws := BlocksOf(request);
    EndsExactly(request);
    hide BlocksOf, Unique, EndsScope, Ends;
    EndsAre(raws);
    LastSliceExactly(Ends(raws), max);
    SliceIsUpper(Ends(raws), max);
  }

  lemma EndsAre(raws: seq<Raw>)
    ensures TailIndexes(raws, 1) == LastSlice(Unique(Ends(raws)), 1)
    ensures forall max :: TailIndexes(raws, max) == LastSlice(Unique(Ends(raws)), max)
  {
  }

  lemma SliceIsUpper(xs: seq<nat>, m: int)
    requires Increasing(xs)
    ensures forall i :: i in LastSlice(xs, m) ==> i in xs
    ensures forall i, j :: i in LastSlice(xs, m) && j in xs && i <= j ==> j in LastSlice(xs, m)
  {
    LastSliceExactly(xs, m);
    var s := LastSlice(xs, m);
    hide LastSlice;
    var n := |xs| - |s|;
    forall i, j | i in s && j in xs && i <= j ensures j in s {
      var k :| 0 <= k < |s| && s[k] == i;
      var l :| 0 <= l < |xs| && xs[l] == j;
      assert xs[n..][k] == xs[n + k];
      assert l >= n + k;
      assert xs[n..][l - n] == j;
    }
  }

  // ---- spread ----

  function HeadCount(raws: seq<Raw>): nat { Present(raws, Tools) + Present(raws, System) }

  /** The spread strategy marks the last tool, the last system block, and spreads what is left of its maximum
      evenly over the user's messages. */
  lemma SpreadExactly(request: Request, max: int)
    requires max >= HeadCount(BlocksOf(request))
    ensures var raws := BlocksOf(request);
      SpreadIndexes(raws, max)
        == Singleton(Last(raws, Tools)) + Singleton(Last(raws, System))
           + Spaced(UserMessages(raws), max - HeadCount(raws))
  {
    var raws := BlocksOf(request);
    BlocksAreScopeOrdered(request);
    hide BlocksOf, Unique, Spaced, Last;
    HeadsAreIncreasing(raws);
    UniqueOfIncreasing(Heads(raws));
    HeadsCounted(raws);
    var spaced := Spaced(UserMessages(raws), max - HeadCount(raws));
    assert Remaining(raws, max) == max - HeadCount(raws);
    SpacedIsIncreasing(UserMessages(raws), max - HeadCount(raws));
    AllBelowMessages(raws, Heads(raws), spaced);
    ConcatIsIncreasing(Heads(raws), spaced);
    UniqueOfIncreasing(Heads(raws) + spaced);
    LastSliceExactly(Heads(raws) + spaced, max);
    if max == 0 { assert spaced == [] && Heads(raws) == []; }
  }

  lemma HeadsCounted(raws: seq<Raw>)
    ensures |Heads(raws)| == HeadCount(raws)
  {
    hide Last;
  }

  // ---- observed ----

  /** A control that names no time to live has the default one. */
  lemma TtlExactly(control: Option<Control>, default: nat)
    ensures Ttl(control, default) ==
      if control.Some? && control.value.ttl.Some? then control.value.ttl.value else default
  {
  }

  /** The request marks its own blocks, and the last one by its own control. */
  lemma {:induction false} MarkedExactly(request: Request, raws: seq<Raw>, default: nat, b: Breakpoint)
    ensures b in MarkedBlocks(raws, default) <==>
      b.index < |raws| && raws[b.index].control.Some? && b.ttl == Ttl(raws[b.index].control, default)
    ensures b in Marked(request, raws, default) <==>
      || b in MarkedBlocks(raws, default)
      || (request.control.Some? && raws != [] && b == Breakpoint(|raws| - 1, Ttl(request.control, default)))
    decreases |raws|
  {
    hide Ttl;
    if raws != [] { MarkedExactly(request, raws[..|raws| - 1], default, b); }
  }

  // ---- all of them ----

  /** Which breakpoints each strategy chooses, with their time to live. */
  lemma ChosenExactly(o: Options, request: Request, b: Breakpoint)
    ensures var raws, chosen := BlocksOf(request), Chosen(o, request);
      match o.strategy
      case NoCache => chosen == []
      case Automatic =>
        chosen == if raws == [] then [] else [Breakpoint(|raws| - 1, Ttl(request.control, o.defaultTtl))]
      case Tail => b in chosen <==> b.index in TailIndexes(raws, o.maxBreakpoints) && b.ttl == o.defaultTtl
      case Spread => b in chosen <==> b.index in SpreadIndexes(raws, o.maxBreakpoints) && b.ttl == o.defaultTtl
      case Observed =>
        b in chosen <==>
          && b in Marked(request, raws, o.defaultTtl)
          && forall c :: c in Marked(request, raws, o.defaultTtl) && c.index == b.index ==> c.ttl <= b.ttl
  {
    hide BlocksOf, TailIndexes, SpreadIndexes, Marked, Ttl;
    var raws := BlocksOf(request);
    match o.strategy
    case Tail => AtExactly(TailIndexes(raws, o.maxBreakpoints), o.defaultTtl, b);
    case Spread => AtExactly(SpreadIndexes(raws, o.maxBreakpoints), o.defaultTtl, b);
    case Observed =>
      ByIndexMeaning(Marked(request, raws, o.defaultTtl), |raws|);
      BestTtlMeaning(Marked(request, raws, o.defaultTtl), b.index);
    case _ =>
  }

  lemma AtExactly(xs: seq<nat>, ttl: nat, b: Breakpoint)
    ensures b in At(xs, ttl) <==> b.index in xs && b.ttl == ttl
  {
    if b.index in xs && b.ttl == ttl {
      var i :| 0 <= i < |xs| && xs[i] == b.index;
      assert At(xs, ttl)[i] == b;
    }
  }

  /** The scale of a request makes its estimates add up to what the provider reported read and created. */
  lemma RecordScaleExactly(o: Options, r: Record)
    ensures var reported := r.actualRead + r.actualCreate;
      if o.calibrate && RawSum(Raws(r)) > 0 && reported > 0
      then RecordScale(o, r) * RawSum(Raws(r)) as real == reported as real else RecordScale(o, r) == 1.0
  {
    hide Scale, RawSum, Raws;
    ScaleExactly(Raws(r), r.actualRead + r.actualCreate, o.calibrate);
  }
}
