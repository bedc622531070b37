/** Prompt blocks of one Anthropic request, the chained prefix hash over them and the
    calibrated token count of every prefix (scripts/dev/replay_anthropic_cache.py). */
module CachePrefix {
  import opened Prelude

  datatype Scope = Tools | System | Messages

  /** Canonical JSON texts of the parts of a request that are hashed before any block. */
  datatype Namespace = Namespace(model: string, toolChoice: string, thinking: string)

  /** What a block contributes to the hash chain: its scope, its role and its own JSON text. */
  datatype BlockValue = BlockValue(scope: Scope, role: string, json: string)

  /** SHA-256 (section 6.2 of FIPS 180-4) is treated as injective; a base input (a JSON object)
      is never a step input (two digests around a NUL), so the two constructors stay apart. */
  datatype Digest = Base(ns: Namespace) | Chain(previous: Digest, block: BlockValue)

  /** A non-empty cache_control object, with the TTL in seconds if it names one. */
  datatype Control = Control(ttl: Option<nat>)

  /** A decoded object of `tools`, `system` or a message's `content`; `json` is its canonical
      text without cache_control and `tokens` the estimate made from that text. */
  datatype Entry = Entry(kind: string, text: string, json: string, tokens: nat, control: Option<Control>)
  datatype Message = Message(role: string, content: seq<Entry>)
  datatype Request = Request(
    ns: Namespace, tools: seq<Entry>, system: seq<Entry>, messages: seq<Message>, control: Option<Control>)

  /** The part of a block that build_blocks fixes. */
  datatype Raw = Raw(value: BlockValue, tokens: nat, control: Option<Control>)

  /** A block; assign_prefixes fills in the two mutable fields. */
  class Block {
    const index: nat
    const raw: Raw
    var prefixHash: Option<Digest>
    var prefixTokens: nat

    constructor (index: nat, raw: Raw)
      ensures this.index == index && this.raw == raw
      ensures prefixHash == None && prefixTokens == 0
    {
      this.index, this.raw := index, raw;
      prefixHash, prefixTokens := None, 0;
    }
  }

  // ---- build_blocks ----

  const CACHEABLE_MESSAGE_TYPES: set<string> :=
    {"text", "image", "document", "tool_use", "tool_result", "server_tool_use", "web_search_tool_result"}

  predicate Cacheable(e: Entry, scope: Scope) {
    scope == Tools ||
    (e.kind != "thinking" && !(e.kind == "text" && Blank(e.text)) &&
     (scope == System || e.kind in CACHEABLE_MESSAGE_TYPES))
  }

  /** The cacheable entries of one list, in order. */
  function Keep(entries: seq<Entry>, scope: Scope, role: string): (kept: seq<Raw>)
    ensures forall i :: 0 <= i < |kept| ==> kept[i].value.scope == scope && kept[i].value.role == role
  {
    if entries == [] then []
    else
      var e := entries[|entries| - 1];
      var before := Keep(entries[..|entries| - 1], scope, role);
      if Cacheable(e, scope) then before + [Raw(BlockValue(scope, role, e.json), e.tokens, e.control)] else before
  }

  function KeepMessages(messages: seq<Message>): (kept: seq<Raw>)
    ensures forall i :: 0 <= i < |kept| ==> kept[i].value.scope == Messages
  {
    if messages == [] then []
    else
      var m := messages[|messages| - 1];
      KeepMessages(messages[..|messages| - 1]) + Keep(m.content, Messages, m.role)
  }

  /** Prompt order: tools, then system, then messages. */
  function BlocksOf(request: Request): seq<Raw> {
    Keep(request.tools, Tools, "") + Keep(request.system, System, "system") + KeepMessages(request.messages)
  }

  /** Which entries count: every tool; in `system` all but thinking, in messages only the listed kinds; and
      no text that is blank. */
  predicate Counts(e: Entry, scope: Scope) {
    match scope
    case Tools => true
    case System => e.kind != "thinking" && (e.kind == "text" ==> !Blank(e.text))
    case Messages => e.kind in CACHEABLE_MESSAGE_TYPES && (e.kind == "text" ==> !Blank(e.text))
  }

  lemma CountsExactly(e: Entry, scope: Scope)
    ensures Counts(e, scope) <==> Cacheable(e, scope)
  {
    hide Blank;
    assert "thinking" !in CACHEABLE_MESSAGE_TYPES;
  }

  /** The blocks of a list are made of the entries that count, each once, in order: `from` says where each
      one comes from. */
  lemma {:induction false} KeepMeaning(entries: seq<Entry>, scope: Scope, role: string) returns (from: seq<nat>)
    ensures Increasing(from) && |from| == |Keep(entries, scope, role)|
    ensures forall i: nat :: i in from <==> i < |entries| && Counts(entries[i], scope)
    ensures forall k :: 0 <= k < |from| ==>
      && from[k] < |entries|
      && var e := entries[from[k]];
         Keep(entries, scope, role)[k] == Raw(BlockValue(scope, role, e.json), e.tokens, e.control)
    decreases |entries|
  {
    hide Cacheable, Counts;
    from := [];
    if entries != [] {
      var n := |entries| - 1;
      from := KeepMeaning(entries[..n], scope, role);
      CountsExactly(entries[n], scope);
      assert forall k :: 0 <= k < |from| ==> from[k] in from;
      assert forall i: nat :: i < n ==> entries[..n][i] == entries[i];
      if Counts(entries[n], scope) { from := from + [n]; }
    }
  }

  lemma {:induction false} MessagesJoin(a: seq<Message>, b: seq<Message>)
    ensures KeepMessages(a + b) == KeepMessages(a) + KeepMessages(b)
    decreases |b|
  {
    if b == [] {
      assert a + b == a;
    } else {
      MessagesJoin(a, b[..|b| - 1]);
      assert (a + b)[..|a + b| - 1] == a + b[..|b| - 1];
    }
  }

  /** The prompt is the tools, then the system entries, then message after message. */
  lemma {:induction false} PromptOrder(request: Request, before: seq<Message>, m: Message, rest: seq<Message>)
    requires request.messages == before + [m] + rest
    ensures BlocksOf(request.(messages := []))
      == Keep(request.tools, Tools, "") + Keep(request.system, System, "system")
    ensures var head := BlocksOf(request.(messages := before));
      BlocksOf(request) == head + Keep(m.content, Messages, m.role) + KeepMessages(rest)
  {
    OneMessage(m);
    hide Keep, KeepMessages;
    MessagesJoin(before + [m], rest);
    MessagesJoin(before, [m]);
    NoMessages();
  }

  lemma OneMessage(m: Message)
    ensures KeepMessages([m]) == Keep(m.content, Messages, m.role)
  {
    hide Keep;
    assert [m][..0] == [];
    NoMessages();
  }

  lemma NoMessages()
    ensures KeepMessages([]) == []
  {
  }

  function Rank(scope: Scope): nat {
    match scope
    case Tools => 0
    case System => 1
    case Messages => 2
  }

  predicate ScopeOrdered(raws: seq<Raw>) {
    forall i, j :: 0 <= i < j < |raws| ==> Rank(raws[i].value.scope) <= Rank(raws[j].value.scope)
  }

  /** The blocks of a request come scope by scope, which the tail and spread strategies need. */
  lemma BlocksAreScopeOrdered(request: Request)
    ensures ScopeOrdered(BlocksOf(request))
  {
    var t, s := Keep(request.tools, Tools, ""), Keep(request.system, System, "system");
    var m := KeepMessages(request.messages);
    var all := BlocksOf(request);
    assert forall i :: 0 <= i < |all| ==>
      all[i].value.scope == if i < |t| then Tools else if i < |t| + |s| then System else Messages;
  }

  ghost predicate Represents(blocks: seq<Block>, raws: seq<Raw>) {
    && |blocks| == |raws|
    && (forall i :: 0 <= i < |blocks| ==> blocks[i].raw == raws[i] && blocks[i].index == i)
    && (forall i, j :: 0 <= i < j < |blocks| ==> blocks[i] != blocks[j])
  }

  method AppendEntries(blocks: seq<Block>, entries: seq<Entry>, scope: Scope, role: string, ghost raws: seq<Raw>)
      returns (out: seq<Block>)
    requires Represents(blocks, raws)
    ensures Represents(out, raws + Keep(entries, scope, role))
    ensures forall i :: 0 <= i < |out| ==> out[i] in blocks || fresh(out[i])
  {
    out := blocks;
    for k := 0 to |entries|
      invariant Represents(out, raws + Keep(entries[..k], scope, role))
      invariant forall i :: 0 <= i < |out| ==> out[i] in blocks || fresh(out[i])
    {
      assert entries[..k + 1][..k] == entries[..k];
      var e := entries[k];
      if Cacheable(e, scope) {
        var b := new Block(|out|, Raw(BlockValue(scope, role, e.json), e.tokens, e.control));
        assert forall i :: 0 <= i < |out| ==> out[i] != b;
        out := out + [b];
      }
    }
    assert entries[..|entries|] == entries;
  }

  method BuildBlocks(request: Request) returns (blocks: seq<Block>)
    ensures Represents(blocks, BlocksOf(request))
    ensures forall i :: 0 <= i < |blocks| ==> fresh(blocks[i])
  {
    blocks := AppendEntries([], request.tools, Tools, "", []);
    assert [] + Keep(request.tools, Tools, "") == Keep(request.tools, Tools, "");
    ghost var head := Keep(request.tools, Tools, "");
    blocks := AppendEntries(blocks, request.system, System, "system", head);
    head := head + Keep(request.system, System, "system");
    for k := 0 to |request.messages|
      invariant Represents(blocks, head + KeepMessages(request.messages[..k]))
      invariant forall i :: 0 <= i < |blocks| ==> fresh(blocks[i])
    {
      var m := request.messages[k];
      assert request.messages[..k + 1][..k] == request.messages[..k];
      ghost var so := KeepMessages(request.messages[..k]);
      blocks := AppendEntries(blocks, m.content, Messages, m.role, head + so);
      assert (head + so) + Keep(m.content, Messages, m.role) == head + (so + Keep(m.content, Messages, m.role));
    }
    assert request.messages[..|request.messages|] == request.messages;
  }

  // ---- assign_prefixes ----

  function RawSum(raws: seq<Raw>): nat {
    if raws == [] then 0 else RawSum(raws[..|raws| - 1]) + raws[|raws| - 1].tokens
  }

  /** The factor that makes the estimates add up to what the provider reported. */
  function Scale(raws: seq<Raw>, observed: int, calibrate: bool): (scale: real)
    ensures scale > 0.0
  {
    var total := RawSum(raws);
    if calibrate && total > 0 && observed > 0 then observed as real / total as real else 1.0
  }

  /** Python's round on an exact rational: to nearest, ties to even. */
  function Round(x: real): int {
    var floor := x.Floor;
    var rest := x - floor as real;
    if rest < 0.5 || (rest == 0.5 && floor % 2 == 0) then floor else floor + 1
  }

  function Scaled(sum: nat, scale: real): int { Round(sum as real * scale) }

  /** Tokens of the prefix made of all of `raws`; the empty prefix has none. */
  function PrefixTokens(raws: seq<Raw>, scale: real): nat {
    if raws == [] then 0
    else
      var previous := PrefixTokens(raws[..|raws| - 1], scale);
      var tokens := Scaled(RawSum(raws), scale);
      if tokens <= previous then previous + 1 else tokens
  }

  /** Hash of the prefix made of all of `raws`. */
  function PrefixDigest(ns: Namespace, raws: seq<Raw>): Digest {
    if raws == [] then Base(ns)
    else Chain(PrefixDigest(ns, raws[..|raws| - 1]), raws[|raws| - 1].value)
  }

  /** One block more: how sum, tokens and digest of a prefix grow. */
  lemma {:induction false} Extend(ns: Namespace, raws: seq<Raw>, i: nat, scale: real)
    requires i < |raws|
    ensures RawSum(raws[..i + 1]) == RawSum(raws[..i]) + raws[i].tokens
    ensures PrefixDigest(ns, raws[..i + 1]) == Chain(PrefixDigest(ns, raws[..i]), raws[i].value)
    ensures
      var previous, tokens := PrefixTokens(raws[..i], scale), Scaled(RawSum(raws[..i + 1]), scale);
      PrefixTokens(raws[..i + 1], scale) == if tokens <= previous then previous + 1 else tokens
  {
    hide Scaled;
    assert raws[..i + 1][..i] == raws[..i];
  }

  method ComputeScale(blocks: seq<Block>, observed: int, calibrate: bool, ghost raws: seq<Raw>) returns (scale: real)
    requires Represents(blocks, raws)
    ensures scale == Scale(raws, observed, calibrate)
  {
    var rawTotal := 0;
    for i := 0 to |blocks|
      invariant rawTotal == RawSum(raws[..i])
    {
      assert raws[..i + 1][..i] == raws[..i];
      rawTotal := rawTotal + blocks[i].raw.tokens;
    }
    assert raws[..|raws|] == raws;
    scale := if calibrate && rawTotal > 0 && observed > 0 then observed as real / rawTotal as real else 1.0;
  }

  method AssignPrefixes(ns: Namespace, blocks: seq<Block>, observed: int, calibrate: bool, ghost raws: seq<Raw>)
    requires Represents(blocks, raws)
    modifies blocks
    ensures forall i :: 0 <= i < |blocks| ==>
      && blocks[i].prefixHash == Some(PrefixDigest(ns, raws[..i + 1]))
      && blocks[i].prefixTokens == PrefixTokens(raws[..i + 1], Scale(raws, observed, calibrate))
  {
    var scale := ComputeScale(blocks, observed, calibrate, raws);
    hide Scale;
    hide Scaled;
    var prefixHash, cumulative, previous := Base(ns), 0, 0;
    for i := 0 to |blocks|
      invariant cumulative == RawSum(raws[..i])
      invariant prefixHash == PrefixDigest(ns, raws[..i])
      invariant previous == PrefixTokens(raws[..i], scale)
      invariant forall k :: 0 <= k < i ==>
        && blocks[k].prefixHash == Some(PrefixDigest(ns, raws[..k + 1]))
        && blocks[k].prefixTokens == PrefixTokens(raws[..k + 1], scale)
    {
      hide RawSum;
      hide PrefixDigest;
      hide PrefixTokens;
      var block := blocks[i];
      Extend(ns, raws, i, scale);
      cumulative := cumulative + block.raw.tokens;
      prefixHash := Chain(prefixHash, block.raw.value);
      block.prefixHash := Some(prefixHash);
      var tokens := Scaled(cumulative, scale);
      if tokens <= previous {
        tokens := previous + 1;
      }
      block.prefixTokens := tokens;
      previous := tokens;
    }
  }

  // ---- what the hashes mean ----

  function Values(raws: seq<Raw>): (values: seq<BlockValue>)
    ensures |values| == |raws|
  {
    seq(|raws|, i requires 0 <= i < |raws| => raws[i].value)
  }

  /** Two prefixes share a hash exactly when model, salt and every block agree. */
  lemma {:induction false} DigestIsExact(ns: Namespace, a: seq<Raw>, ns': Namespace, b: seq<Raw>)
    ensures PrefixDigest(ns, a) == PrefixDigest(ns', b) <==> ns == ns' && Values(a) == Values(b)
  {
    if a != [] && b != [] {
      var n, m := |a| - 1, |b| - 1;
      DigestIsExact(ns, a[..n], ns', b[..m]);
      assert Values(a) == Values(a[..n]) + [a[n].value];
      assert Values(b) == Values(b[..m]) + [b[m].value];
      if Values(a) == Values(b) {
        assert n == m;
        assert Values(a)[n] == a[n].value && Values(b)[n] == b[n].value;
        assert Values(a[..n]) == Values(a)[..n];
        assert Values(b[..n]) == Values(b)[..n];
      }
    } else if a == [] && b == [] {
      assert Values(a) == Values(b);
    } else {
      assert |Values(a)| == |a| && |Values(b)| == |b|;
    }
  }

  // ---- what the token counts mean ----

  lemma {:induction false} TokensGrow(raws: seq<Raw>, i: nat, j: nat, scale: real)
    requires i < j <= |raws|
    ensures PrefixTokens(raws[..i], scale) < PrefixTokens(raws[..j], scale)
    decreases j
  {
    assert raws[..j][..j - 1] == raws[..j - 1];
    if i < j - 1 {
      TokensGrow(raws, i, j - 1, scale);
    }
  }

  /** `bound` is a candidate for the token counts of the prefixes of `raws`: positive, strictly
      increasing, and nowhere below the rounded scaled sums. */
  ghost predicate Candidate(bound: seq<int>, raws: seq<Raw>, scale: real) {
    && |bound| == |raws|
    && (forall i :: 0 <= i < |bound| ==> 0 < bound[i])
    && (forall i :: 0 < i < |bound| ==> bound[i - 1] < bound[i])
    && (forall i :: 0 <= i < |bound| ==> Scaled(RawSum(raws[..i + 1]), scale) <= bound[i])
  }

  function AllTokens(raws: seq<Raw>, scale: real): (tokens: seq<int>) {
    seq(|raws|, i requires 0 <= i < |raws| => PrefixTokens(raws[..i + 1], scale))
  }

  lemma {:induction false} TokensBelowCandidate(bound: seq<int>, raws: seq<Raw>, scale: real, i: nat)
    requires Candidate(bound, raws, scale) && i < |raws|
    ensures PrefixTokens(raws[..i + 1], scale) <= bound[i]
  {
    assert raws[..i + 1][..i] == raws[..i];
    assert PrefixTokens(raws[..0], scale) == 0 < bound[i];
    if i > 0 {
      TokensBelowCandidate(bound, raws, scale, i - 1);
      assert bound[i - 1] < bound[i];
    }
  }

  /** The assigned token counts are the least candidate, in every position. */
  lemma TokensAreLeast(raws: seq<Raw>, scale: real)
    ensures Candidate(AllTokens(raws, scale), raws, scale)
    ensures forall bound, i :: Candidate(bound, raws, scale) && 0 <= i < |raws| ==>
      AllTokens(raws, scale)[i] <= bound[i]
  {
    var tokens := AllTokens(raws, scale);
    forall i | 0 <= i < |raws|
      ensures 0 < tokens[i] && Scaled(RawSum(raws[..i + 1]), scale) <= tokens[i]
      ensures 0 < i ==> tokens[i - 1] < tokens[i]
    {
      assert raws[..i + 1][..i] == raws[..i];
      TokensGrow(raws, 0, i + 1, scale);
      if 0 < i { TokensGrow(raws, i, i + 1, scale); }
    }
    forall bound, i | Candidate(bound, raws, scale) && 0 <= i < |raws|
      ensures tokens[i] <= bound[i]
    {
      TokensBelowCandidate(bound, raws, scale, i);
    }
  }

  /** A nearest integer, and of two the even one. */
  lemma RoundExactly(x: real)
    ensures -0.5 <= Round(x) as real - x <= 0.5
    ensures Round(x) as real - x == -0.5 || Round(x) as real - x == 0.5 ==> Round(x) % 2 == 0
  {
  }

  /** The scale leaves the estimates alone, or makes them add up to what was observed. */
  lemma {:induction false} ScaleExactly(raws: seq<Raw>, observed: int, calibrate: bool)
    ensures if calibrate && RawSum(raws) > 0 && observed > 0
            then Scale(raws, observed, calibrate) * RawSum(raws) as real == observed as real
            else Scale(raws, observed, calibrate) == 1.0
  {
    var t, o := RawSum(raws) as real, observed as real;
    if t > 0.0 { assert o / t * t == o; }
  }

  /** Calibration never loses observed tokens: the whole prompt counts at least as many as the
      provider reported read and created. */
  lemma {:induction false} CalibratedTotalCoversObserved(raws: seq<Raw>, observed: int)
    requires RawSum(raws) > 0
    ensures observed <= PrefixTokens(raws, Scale(raws, observed, true))
  {
    if observed > 0 {
      ScaleRestores(RawSum(raws), observed);
    }
  }

  lemma ScaleRestores(total: nat, observed: int)
    requires total > 0
    ensures Scaled(total, observed as real / total as real) == observed
  {
    var t, o := total as real, observed as real;
    assert t * (o / t) == o;
    assert o.Floor == observed;
  }
}
