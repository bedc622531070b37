/** Configuring DeepSeek against a gateway that other clients change at the same time
    (desktop/src-tauri/src/deepseek.rs). */
module DeepSeekSetup {
  import opened Prelude
  import opened DeepSeekGraph
  import opened DeepSeekLaws

  datatype ApiError = Conflict | NotDelivered | InvalidInput | KeyRequired | FinalStateMismatch | ChangedRepeatedly

  /** What happens to one request: another client may replace the graph first, the request may be
      refused, or its answer may be lost after it took effect. */
  datatype Delivery = Answered | Refused | AnswerLost
  datatype Env = Env(other: Option<Resources>, delivery: Delivery)

  predicate Calm(e: Env) { e == Env(None, Answered) }

  ghost predicate AllCalm(world: nat -> Env) { forall n :: Calm(world(n)) }

  datatype Graph = Graph(revision: nat, resources: Resources)

  /** The gateway's graph; every accepted change makes a new revision. A gateway that `encodes` serves
      its offers as its encoder writes them, any other serves what it stored. */
  class Gateway {
    const encodes: bool
    var revision: nat
    var resources: Resources
    ghost var log: seq<Mutation>
    ghost var fetches: nat

    constructor (resources: Resources, encodes: bool)
      ensures this.resources == resources && log == [] && fetches == 0 && this.encodes == encodes
    {
      revision, this.resources, log, fetches, this.encodes := 0, resources, [], 0, encodes;
    }

    function Served(): Graph
      reads this
    {
      Graph(revision, if encodes then EncodedGraph(resources) else resources)
    }

    method Intrude(other: Option<Resources>)
      modifies this`revision, this`resources
      ensures other == None ==> revision == old(revision) && resources == old(resources)
      ensures other.Some? ==> revision == old(revision) + 1 && resources == other.value
    {
      if other.Some? {
        revision, resources := revision + 1, other.value;
      }
    }

    method Read(e: Env) returns (r: Result<Graph, ApiError>)
      modifies this`revision, this`resources, this`fetches
      ensures fetches == old(fetches) + 1
      ensures r == if e.delivery == Answered then Ok(Served()) else Err(NotDelivered)
      ensures e.other == None ==> revision == old(revision) && resources == old(resources)
      ensures e.other.Some? ==> revision == old(revision) + 1 && resources == e.other.value
    {
      Intrude(e.other);
      fetches := fetches + 1;
      r := if e.delivery == Answered then Ok(Served()) else Err(NotDelivered);
    }

    method Submit(base: nat, m: Mutation, e: Env) returns (r: Result<Graph, ApiError>)
      requires base <= revision
      modifies this`revision, this`resources, this`log
      ensures r.Ok? ==> e.other == None && base == old(revision)
      ensures r.Ok? ==> r.value == Served() && resources == Apply(old(resources), m)
      ensures revision >= old(revision) && (revision == old(revision) ==> resources == old(resources))
      ensures r.Ok? ==> log == old(log) + [m]
      ensures Calm(e) && base == old(revision) ==> r.Ok?
      ensures r.Err? ==> r.error in {Conflict, NotDelivered}
      ensures var applied := e.delivery != Refused && e.other == None && base == old(revision);
        && (r.Ok? <==> applied && e.delivery == Answered) && (r == Err(Conflict) <==> e.delivery != Refused && !applied)
        && log == (if applied then old(log) + [m] else old(log))
        && resources == (if applied then Apply(old(resources), m) else e.other.GetOr(old(resources)))
    {
      Intrude(e.other);
      if e.delivery == Refused {
        return Err(NotDelivered);
      }
      if base != revision {
        return Err(Conflict);
      }
      revision, resources, log := revision + 1, Apply(resources, m), log + [m];
      if e.delivery == AnswerLost {
        return Err(NotDelivered);
      }
      r := Ok(Served());
    }
  }

  /** The changes of one part after the other, each based on the graph the one before returned.
      Request 0 is the read before them. */
  method Reconcile(gateway: Gateway, start: Graph, input: Input, world: nat -> Env) returns (r: Result<Graph, ApiError>)
    requires start == gateway.Served()
    modifies gateway
    ensures r.Ok? ==> r.value == gateway.Served()
    ensures r.Ok? && !gateway.encodes ==> gateway.resources == Reconciled(start.resources, PARTS, input)
    ensures r.Ok? && !gateway.encodes ==> gateway.log == old(gateway.log) + Mutations(start.resources, PARTS, input)
    ensures AllCalm(world) ==> r.Ok?
    ensures r.Err? ==> r.error in {Conflict, NotDelivered}
    ensures (forall n :: world(n).delivery == Answered) && r.Err? ==> r.error == Conflict
    ensures gateway.fetches == old(gateway.fetches)
  {
    hide Reconciled, Mutations, Wanted, Apply, EncodedGraph;
    var graph := start;
    NothingYet(start.resources, input);
    for n := 0 to |PARTS|
      invariant graph == gateway.Served() && gateway.fetches == old(gateway.fetches)
      invariant !gateway.encodes ==> graph.resources == Reconciled(start.resources, PARTS[..n], input)
      invariant !gateway.encodes ==> gateway.log == old(gateway.log) + Mutations(start.resources, PARTS[..n], input)
    {
      OnePart(start.resources, n, input);
      var wanted := Wanted(graph.resources, PARTS[n], input);
      if wanted.Some? {
        var answer := gateway.Submit(graph.revision, wanted.value, world(n + 1));
        if answer.Err? {
          return Err(answer.error);
        }
        graph := answer.value;
      }
    }
    assert PARTS[..|PARTS|] == PARTS;
    r := Ok(graph);
  }

  lemma {:induction false} NothingYet(g: Resources, input: Input)
    ensures Reconciled(g, PARTS[..0], input) == g && Mutations(g, PARTS[..0], input) == []
  {
  }

  lemma {:induction false} OnePart(g: Resources, n: nat, input: Input)
    requires n < |PARTS|
    ensures var before := Reconciled(g, PARTS[..n], input);
      var wanted := Wanted(before, PARTS[n], input);
      && Reconciled(g, PARTS[..n + 1], input) == (if wanted.Some? then Apply(before, wanted.value) else before)
      && Mutations(g, PARTS[..n + 1], input)
         == Mutations(g, PARTS[..n], input) + if wanted.Some? then [wanted.value] else []
  {
    assert PARTS[..n + 1][..n] == PARTS[..n];
  }

  /** Three attempts, each from a fresh graph; only a revision conflict starts the next one.
      `world(k)` are the requests of attempt k: a read, the parts, and the final read. */
  method Configure(gateway: Gateway, input: Input, world: nat -> nat -> Env) returns (r: Result<(), ApiError>)
    modifies gateway
    ensures r.Ok? ==> !gateway.encodes && Verified(gateway.resources, input)
    ensures !Valid(input) ==>
      r == Err(InvalidInput) && gateway.resources == old(gateway.resources) && gateway.log == old(gateway.log)
    ensures AllCalm(world(0)) && Valid(input) && KeyAvailable(old(gateway.resources), input) ==>
      if gateway.encodes then r == Err(FinalStateMismatch)
      else
        && r == Ok(()) && gateway.resources == Reconciled(old(gateway.resources), PARTS, input)
        && gateway.log == old(gateway.log) + Mutations(old(gateway.resources), PARTS, input)
    ensures r.Err? ==> r.error != Conflict
    ensures r == Err(ChangedRepeatedly) ==>
      gateway.fetches == old(gateway.fetches) + 3 && forall k: nat :: k < 3 ==> !AllCalm(world(k))
    ensures (forall k: nat, n :: world(k)(n).delivery == Answered) ==> r != Err(NotDelivered)
    ensures Calm(world(0)(0)) && Valid(input) && !KeyAvailable(old(gateway.resources), input) ==>
      r == Err(KeyRequired) && gateway.resources == old(gateway.resources) && gateway.log == old(gateway.log)
  {
    hide Reconciled, Mutations, Verified, Valid, KeyAvailable, EncodedGraph;
    if !Valid(input) {
      return Err(InvalidInput);
    }
    for attempt := 0 to 3
      invariant attempt == 0 ==> gateway.resources == old(gateway.resources) && gateway.log == old(gateway.log)
      invariant forall k: nat :: k < attempt ==> !AllCalm(world(k))
      invariant gateway.fetches == old(gateway.fetches) + attempt
      invariant attempt > 0 ==> !Calm(world(0)(0)) || KeyAvailable(old(gateway.resources), input)
    {
      var start := gateway.Read(world(attempt)(0));
      if start.Err? {
        return Err(start.error);
      }
      NoEncodedGraphVerifies(gateway.resources, input);
      if !KeyAvailable(start.value.resources, input) {
        return Err(KeyRequired);
      }
      var answer := Reconcile(gateway, start.value, input, world(attempt));
      if answer.Ok? {
        ReconcileVerifies(start.value.resources, input);
        var final := gateway.Read(world(attempt)(|PARTS| + 1));
        if final.Err? {
          return Err(final.error);
        }
        NoEncodedGraphVerifies(gateway.resources, input);
        return if Verified(final.value.resources, input) then Ok(()) else Err(FinalStateMismatch);
      }
      if answer.error != Conflict {
        return Err(answer.error);
      }
      assert !AllCalm(world(attempt));
    }
    r := Err(ChangedRepeatedly);
  }
}
