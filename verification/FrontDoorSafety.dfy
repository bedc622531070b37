/** A Codex that follows its config never meets a dead listener: at every effect of every gateway
    operation, and with the exact conditions under which shutdown and handoff keep it. */
module FrontDoorSafety {
  import opened Prelude
  import opened FrontDoor

  lemma TrafficIsSteady(w: World, e: TrafficEnv)
    requires Steady(w)
    ensures AllServed(TrafficStates(w, e)) && Steady(LastOr(TrafficStates(w, e), w))
    ensures LastOr(TrafficStates(w, e), w).backend == w.backend && LastOr(TrafficStates(w, e), w).config == w.config
    ensures !TrafficFails(w, e) ==> LastOr(TrafficStates(w, e), w).door != Open(ToCapture)
  {
  }

  lemma CaptureIsSteady(w: World, started: bool, switched: bool)
    requires Steady(w)
    ensures AllServed(CaptureStates(w, started, switched)) && Steady(LastOr(CaptureStates(w, started, switched), w))
    ensures LastOr(CaptureStates(w, started, switched), w) ==
      if !w.backend || !started then w
      else w.(capture := true, door := if switched && w.door.Open? then Open(ToCapture) else w.door)
  {
  }

  lemma SendIsSteady(w: World, e: StartEnv)
    requires Steady(w) && w.door == Open(ToOriginal) && w.backend
    ensures AllServed(SendStates(w, e)) && Steady(LastOr(SendStates(w, e), w))
  {
  }

  /** A start sends Codex to the door only once the door is open, and the door to the backend only
      once it runs; whatever fails, what is left serves Codex. */
  lemma StartIsSteady(w: World, e: StartEnv)
    requires Steady(w)
    ensures AllServed(StartStates(w, e)) && Steady(LastOr(StartStates(w, e), w))
  {
    hide SendStates;
    var started := w.(backend := true);
    var open := OpenDoor(started, e.binds);
    if !w.backend && open.door.Open? {
      SendIsSteady(open, e);
    }
  }

  lemma UnhookIsSteady(w: World, e: StopEnv)
    requires Steady(w)
    ensures AllServed(UnhookStates(w, e)) && Steady(LastOr(UnhookStates(w, e), w))
  {
  }

  /** A stop takes Codex off the backend before the backend goes, and stops short when it cannot. */
  lemma StopIsSteady(w: World, e: StopEnv)
    requires Steady(w)
    ensures AllServed(StopStates(w, e)) && Steady(LastOr(StopStates(w, e), w))
    ensures StopSucceeds(w, e) && !e.stays ==> !LastOr(StopStates(w, e), w).backend
    ensures StopSucceeds(w, e) ==> LastOr(StopStates(w, e), w).door in {Closed, Open(ToOriginal)}
    ensures LastOr(StopStates(w, e), w).config == w.config
  {
    hide TrafficStates, TrafficFails;
    TrafficIsSteady(w, e.traffic);
    UnhookIsSteady(LastOr(TrafficStates(w, e.traffic), w), e);
  }

  lemma RestartIsSteady(w: World, stop: StopEnv, start: StartEnv)
    requires Steady(w)
    ensures AllServed(RestartStates(w, stop, start)) && Steady(LastOr(RestartStates(w, stop, start), w))
  {
    hide StopStates, StartStates, StopSucceeds;
    StopIsSteady(w, stop);
    StartIsSteady(LastOr(StopStates(w, stop), w), start);
  }

  /** After a crash the process finds everything stopped; startup serves Codex again exactly when
      the config is the user's, or the redirect is recognised and the door can be bound. */
  lemma StartupServes(config: Config, integrated: bool, binds: bool)
    ensures var w := World(config, Closed, false, false);
      Steady(LastOr(StartupStates(w, integrated, binds), w)) <==> config == UserUrl || (integrated && binds)
  {
  }

  /** Shutdown serves Codex at every effect exactly when the config is the user's own by the time
      the backend and the door go. */
  lemma ShutdownServesExactly(w: World, e: ShutdownEnv)
    requires Steady(w)
    ensures AllServed(ShutdownStates(w, e)) <==> w.config == UserUrl || e.restores
  {
    hide TrafficStates, TrafficFails;
    TrafficIsSteady(w, e.traffic);
    var demoted := TrafficStates(w, e.traffic);
    var closing := CloseStates(LastOr(demoted, w), e);
    CloseServesExactly(LastOr(demoted, w), e);
    assert forall s :: s in closing ==> s in demoted + closing;
  }

  /** And it takes the door off the backend before the backend stops, unless the door cannot be switched. */
  lemma ShutdownParks(w: World, e: ShutdownEnv)
    requires w.backend && e.switches
    ensures forall s :: s in ShutdownStates(w, e) && !s.backend ==> s.door in {Closed, Open(ToOriginal)}
  {
    var demoted := TrafficStates(w, e.traffic);
    assert forall s :: s in demoted ==> s.backend;
  }

  lemma CloseServesExactly(w: World, e: ShutdownEnv)
    requires Steady(w)
    ensures AllServed(CloseStates(w, e)) <==> w.config == UserUrl || e.restores
  {
    var worlds := CloseStates(w, e);
    assert worlds[3] in worlds;
  }

  // ---- handoff ----

  predicate Redirects(config: Config, outcome: Enable) {
    config == DoorUrl || outcome == Moved || outcome == FailClosed(true)
  }

  lemma RollbackServesExactly(w: World, e: RollbackEnv)
    requires w.backend && Steady(w)
    ensures AllServed(RollbackStates(w, e)) <==> Steady(LastOr(RollbackStates(w, e), w))
    ensures AllServed(RollbackStates(w, e)) <==> w.door.Open? || e.binds || !Redirects(w.config, e.enable)
  {
    var worlds := RollbackStates(w, e);
    assert worlds[1] in worlds && worlds[2] in worlds;
  }

  /** Handing over serves Codex at every effect unless the door was released, no helper reported
      ready, the door cannot be bound again, and the config is sent back to it all the same. */
  lemma HandoffServesExactly(w: World, e: HandoffEnv)
    requires Steady(w) && w.backend && w.door.Open?
    ensures AllServed(HandoffStates(w, e)) <==>
      (e.restores && e.file && e.spawns && !e.ready ==> e.rollback.binds || !Redirects(UserUrl, e.rollback.enable))
    ensures AllServed(HandoffStates(w, e)) ==> Steady(LastOr(HandoffStates(w, e), w))
  {
    hide RollbackStates;
    var parked := Switch(w, ToOriginal, e.switches);
    var restored := Restore(parked, e.restores);
    if !e.restores || !e.file || !e.spawns {
      RollbackServesExactly(restored, e.rollback);
    } else if !e.ready {
      var released := restored.(door := Closed);
      RollbackServesExactly(released, e.rollback);
      Appended([parked, restored, released], RollbackStates(released, e.rollback));
    }
  }

  lemma Appended(xs: seq<World>, ys: seq<World>)
    ensures AllServed(xs + ys) <==> AllServed(xs) && AllServed(ys)
  {
    assert forall y :: y in ys ==> y in xs + ys;
    assert forall x :: x in xs ==> x in xs + ys;
  }

  // ---- runs ----

  datatype Event =
    | GatewayOn(start: StartEnv)
    | GatewayOff(stop: StopEnv)
    | Restart(stop: StopEnv, start: StartEnv)
    | CaptureOn(started: bool, switched: bool)
    | CaptureOff(traffic: TrafficEnv)
    | Handoff(handoff: HandoffEnv)

  function Worlds(w: World, event: Event): seq<World> {
    match event
    case GatewayOn(e) => StartStates(w, e)
    case GatewayOff(e) => StopStates(w, e)
    case Restart(stop, start) => RestartStates(w, stop, start)
    case CaptureOn(started, switched) => CaptureStates(w, started, switched)
    case CaptureOff(e) => TrafficStates(w, e)
    case Handoff(e) => if w.backend && w.door.Open? then HandoffStates(w, e) else []
  }

  /** Excluded: a rollback that cannot bind the door but sends Codex back to it. */
  predicate Allowed(event: Event) {
    event.Handoff? && event.handoff.restores && event.handoff.file && event.handoff.spawns && !event.handoff.ready ==>
      event.handoff.rollback.binds || !Redirects(UserUrl, event.handoff.rollback.enable)
  }

  function Visited(w: World, events: seq<Event>): seq<World>
    decreases |events|
  {
    if events == [] then [w] else [w] + Worlds(w, events[0]) + Visited(LastOr(Worlds(w, events[0]), w), events[1..])
  }

  lemma EventIsSteady(w: World, event: Event)
    requires Steady(w) && Allowed(event)
    ensures AllServed(Worlds(w, event)) && Steady(LastOr(Worlds(w, event), w))
  {
    hide StartStates, StopStates, RestartStates, CaptureStates, TrafficStates, HandoffStates,
      TrafficFails, StopSucceeds;
    match event
    case GatewayOn(e) => StartIsSteady(w, e);
    case GatewayOff(e) => StopIsSteady(w, e);
    case Restart(stop, start) => RestartIsSteady(w, stop, start);
    case CaptureOn(started, switched) => CaptureIsSteady(w, started, switched);
    case CaptureOff(e) => TrafficIsSteady(w, e);
    case Handoff(e) => if w.backend && w.door.Open? { HandoffServesExactly(w, e); }
  }

  /** Every world of every run serves Codex, whatever fails on the way. */
  lemma {:induction false} RunsServe(w: World, events: seq<Event>)
    requires Steady(w) && forall event :: event in events ==> Allowed(event)
    ensures AllServed(Visited(w, events))
    decreases |events|
  {
    hide Worlds, Allowed, Steady, Served;
    SteadyServes(w);
    if events != [] {
      EventIsSteady(w, events[0]);
      RunsServe(LastOr(Worlds(w, events[0]), w), events[1..]);
    }
  }

  lemma SteadyServes(w: World)
    requires Steady(w)
    ensures Served(w)
  {
  }

  /** The excluded rollback is reachable: the helper keeps the door while its marker is late. */
  lemma LateMarkerStrandsCodex()
    ensures var w := World(DoorUrl, Open(ToBackend), true, false);
      var e := HandoffEnv(true, true, true, true, false, RollbackEnv(false, Moved, true));
      Steady(w) && LastOr(HandoffStates(w, e), w) == World(DoorUrl, Closed, true, false)
  {
  }
}
