/** The three things the desktop moves one at a time: the Codex config, the front-door relay with
    its forwarding target, and the gateway backend (desktop-app/app.go, desktop-app/handoff.go).
    Every operation is given by the worlds it passes through, one per effect. */
module FrontDoor {
  import opened Prelude

  /** Where the Codex config sends Codex. */
  datatype Config = UserUrl | DoorUrl

  datatype Target = ToOriginal | ToBackend | ToCapture

  datatype Door = Closed | Open(target: Target)

  /** `capture` listens in front of the gateway backend. */
  datatype World = World(config: Config, door: Door, backend: bool, capture: bool)

  predicate Live(w: World, target: Target) {
    match target
    case ToOriginal => true
    case ToBackend => w.backend
    case ToCapture => w.capture && w.backend
  }

  /** A Codex that follows its config never meets a dead listener. */
  predicate Served(w: World) {
    w.config == DoorUrl ==> w.door.Open? && Live(w, w.door.target)
  }

  /** Also true of the front door before Codex is sent to it. */
  predicate Steady(w: World) {
    Served(w) && (w.door.Open? ==> Live(w, w.door.target))
  }

  predicate AllServed(worlds: seq<World>) { forall w :: w in worlds ==> Served(w) }

  // ---- single effects ----

  /** A failed switch keeps the old target. */
  function Switch(w: World, target: Target, ok: bool): World {
    if ok && w.door.Open? then w.(door := Open(target)) else w
  }

  /** A door that is already open is left alone. */
  function OpenDoor(w: World, ok: bool): World {
    if ok && w.door == Closed then w.(door := Open(ToOriginal)) else w
  }

  /** The ways of redirecting the config: it moves; it fails closed, moved or not; it was already
      redirected; or it fails with the config unchanged or rolled back. */
  datatype Enable = Moved | FailClosed(moved: bool) | AlreadyIntegrated | Rejected

  function Redirect(w: World, outcome: Enable): World {
    if outcome == Moved || outcome == FailClosed(true) then w.(config := DoorUrl) else w
  }

  function Restore(w: World, ok: bool): World {
    if ok then w.(config := UserUrl) else w
  }

  // ---- the traffic layer, by contract ----

  /** Leaving capture: the door goes back to the backend before the capture listener may stop. */
  datatype TrafficEnv = TrafficEnv(switched: bool, stops: bool, ok: bool)

  function TrafficStates(w: World, e: TrafficEnv): seq<World> {
    if w.door == Open(ToCapture) then
      var switched := Switch(w, ToBackend, e.switched);
      if !e.switched then [switched] else [switched, switched.(capture := !e.stops)]
    else if w.capture then [w.(capture := !e.stops)]
    else []
  }

  predicate TrafficFails(w: World, e: TrafficEnv) {
    if w.door == Open(ToCapture) then !e.switched || !e.ok else w.capture && !e.ok
  }

  /** Entering capture: the listener runs before the door is switched to it. */
  function CaptureStates(w: World, started: bool, switched: bool): seq<World> {
    if !w.backend || !started then []
    else
      var capturing := w.(capture := true);
      [capturing, Switch(capturing, ToCapture, switched)]
  }

  // ---- gateway start, stop and restart ----

  /** `known`: the recovery record says the config is redirected. `stays`: a commanded stop of the
      backend does not take effect. */
  datatype StartEnv = StartEnv(
    loads: bool, starts: bool, binds: bool, known: bool, enable: Enable, switches: bool, stays: bool)
  datatype StopEnv = StopEnv(traffic: TrafficEnv, switches: bool, stays: bool, stopOk: bool)

  datatype Outcome = Started | Failed | LeftRunning

  function StopBackend(w: World, stays: bool): World { w.(backend := w.backend && stays) }

  predicate LeavesRunning(outcome: Enable) { outcome.FailClosed? || outcome.AlreadyIntegrated? }

  /** From the open front door on. */
  function SendStates(w: World, e: StartEnv): seq<World> {
    var already := e.known && w.config == DoorUrl;
    var sent := if already then w else Redirect(w, e.enable);
    if !already && e.enable != Moved then
      if LeavesRunning(e.enable) then [sent] else [sent, StopBackend(sent, e.stays)]
    else
      var switched := Switch(sent, ToBackend, e.switches);
      if e.switches then [sent, switched] else [sent, switched, StopBackend(switched, e.stays)]
  }

  function StartStates(w: World, e: StartEnv): seq<World> {
    if w.backend || !e.loads || !e.starts then []
    else
      var started := w.(backend := true);
      var open := OpenDoor(started, e.binds);
      if open.door == Closed then [started, open, StopBackend(open, e.stays)]
      else [started, open] + SendStates(open, e)
  }

  /** From the demoted traffic layer on. */
  function UnhookStates(w: World, e: StopEnv): seq<World> {
    var parked := Switch(w, ToOriginal, e.switches);
    if w.door.Open? && !e.switches then [parked]
    else [parked, StopBackend(parked, e.stays)]
  }

  function StopStates(w: World, e: StopEnv): seq<World> {
    if !w.backend then []
    else
      var demoted := TrafficStates(w, e.traffic);
      if TrafficFails(w, e.traffic) then demoted else demoted + UnhookStates(LastOr(demoted, w), e)
  }

  predicate StopSucceeds(w: World, e: StopEnv) {
    !w.backend
    || (!TrafficFails(w, e.traffic) && (LastOr(TrafficStates(w, e.traffic), w).door.Open? ==> e.switches) && e.stopOk)
  }

  function RestartStates(w: World, stop: StopEnv, start: StartEnv): seq<World> {
    var stopped := StopStates(w, stop);
    if StopSucceeds(w, stop) then stopped + StartStates(LastOr(stopped, w), start) else stopped
  }

  // ---- startup and shutdown ----

  /** The door reopens when reconciliation finds the config still redirected. */
  function StartupStates(w: World, integrated: bool, binds: bool): seq<World> {
    if integrated then [OpenDoor(w, binds)] else []
  }

  datatype ShutdownEnv = ShutdownEnv(traffic: TrafficEnv, switches: bool, restores: bool, stays: bool)

  function CloseStates(w: World, e: ShutdownEnv): seq<World> {
    var parked := Switch(w, ToOriginal, e.switches);
    var restored := Restore(parked, e.restores);
    var stopped := StopBackend(restored, e.stays);
    [parked, restored, stopped, stopped.(door := Closed)]
  }

  function ShutdownStates(w: World, e: ShutdownEnv): seq<World> {
    var demoted := TrafficStates(w, e.traffic);
    demoted + CloseStates(LastOr(demoted, w), e)
  }

  // ---- handing the front door over ----

  datatype RollbackEnv = RollbackEnv(binds: bool, enable: Enable, switches: bool)
  datatype HandoffEnv = HandoffEnv(
    switches: bool, restores: bool, file: bool, spawns: bool, ready: bool, rollback: RollbackEnv)

  function RollbackStates(w: World, e: RollbackEnv): seq<World> {
    var open := OpenDoor(w, e.binds);
    var sent := Redirect(open, e.enable);
    [open, sent, Switch(sent, ToBackend, e.switches)]
  }

  function HandoffStates(w: World, e: HandoffEnv): seq<World> {
    var parked := Switch(w, ToOriginal, e.switches);
    var restored := Restore(parked, e.restores);
    if !e.restores || !e.file || !e.spawns then [parked, restored] + RollbackStates(restored, e.rollback)
    else
      var released := restored.(door := Closed);
      if e.ready then [parked, restored, released]
      else [parked, restored, released] + RollbackStates(released, e.rollback)
  }

  // ---- the App ----

  class App {
    var config: Config
    var door: Door
    var backend: bool
    var capture: bool
    ghost var history: seq<World>

    constructor (config: Config)
      ensures Now() == World(config, Closed, false, false) && history == []
    {
      this.config, door, backend, capture, history := config, Closed, false, false, [];
    }

    ghost function Now(): World
      reads this
    {
      World(config, door, backend, capture)
    }

    method SetUpstream(target: Target, ok: bool) returns (done: bool)
      modifies this
      ensures Now() == Switch(old(Now()), target, ok) && history == old(history) + [Now()]
      ensures done == (ok && old(door).Open?)
      ensures config == old(config) && backend == old(backend) && capture == old(capture)
      ensures door == if done then Open(target) else old(door)
    {
      done := ok && door.Open?;
      if done {
        door := Open(target);
      }
      history := history + [Now()];
    }

    method StartFrontDoor(binds: bool) returns (done: bool)
      modifies this
      ensures Now() == OpenDoor(old(Now()), binds) && history == old(history) + [Now()]
      ensures done == door.Open?
      ensures old(door).Open? ==> door == old(door)
      ensures old(door) == Closed && done ==> door == Open(ToOriginal)
    {
      if door == Closed && binds {
        door := Open(ToOriginal);
      }
      history := history + [Now()];
      done := door.Open?;
    }

    method Integrate(outcome: Enable)
      modifies this
      ensures Now() == Redirect(old(Now()), outcome) && history == old(history) + [Now()]
    {
      if outcome == Moved || outcome == FailClosed(true) {
        config := DoorUrl;
      }
      history := history + [Now()];
    }

    method DisableIntegration(ok: bool)
      modifies this
      ensures Now() == Restore(old(Now()), ok) && history == old(history) + [Now()]
    {
      if ok {
        config := UserUrl;
      }
      history := history + [Now()];
    }

    method StopService(stays: bool)
      modifies this
      ensures Now() == StopBackend(old(Now()), stays) && history == old(history) + [Now()]
    {
      backend := backend && stays;
      history := history + [Now()];
    }

    method LeaveCapture(e: TrafficEnv) returns (ok: bool)
      modifies this
      ensures history == old(history) + TrafficStates(old(Now()), e)
      ensures Now() == LastOr(TrafficStates(old(Now()), e), old(Now()))
      ensures ok == !TrafficFails(old(Now()), e)
      ensures ok == if old(door) == Open(ToCapture) then e.switched && e.ok else old(capture) ==> e.ok
      ensures config == old(config) && backend == old(backend)
      ensures door == if old(door) == Open(ToCapture) && e.switched then Open(ToBackend) else old(door)
      ensures capture ==
        if (if old(door) == Open(ToCapture) then e.switched else old(capture)) then !e.stops else old(capture)
    {
      if door == Open(ToCapture) {
        var switched := SetUpstream(ToBackend, e.switched);
        if !switched {
          return false;
        }
      } else if !capture {
        return true;
      }
      capture := !e.stops;
      history := history + [Now()];
      ok := e.ok;
    }

    method Send(e: StartEnv) returns (r: Outcome)
      requires door.Open? && backend
      modifies this
      ensures history == old(history) + SendStates(old(Now()), e)
      ensures Now() == LastOr(SendStates(old(Now()), e), old(Now()))
      ensures r == Started <==> ((e.known && old(config) == DoorUrl) || e.enable == Moved) && e.switches
      ensures r == LeftRunning <==>
        !(e.known && old(config) == DoorUrl) && (e.enable.FailClosed? || e.enable.AlreadyIntegrated?)
      ensures config == if (e.known && old(config) == DoorUrl) || e.enable in {Moved, FailClosed(true)} then DoorUrl
                        else old(config)
      ensures door == (if r == Started then Open(ToBackend) else old(door)) && backend == (r == Failed ==> e.stays)
      ensures capture == old(capture)
    {
      if e.known && config == DoorUrl {
        history := history + [Now()];
      } else {
        Integrate(e.enable);
        if LeavesRunning(e.enable) {
          return LeftRunning;
        }
        if e.enable == Rejected {
          StopService(e.stays);
          return Failed;
        }
      }
      var switched := SetUpstream(ToBackend, e.switches);
      if !switched {
        StopService(e.stays);
        return Failed;
      }
      r := Started;
    }

    method StartGateway(e: StartEnv) returns (r: Outcome)
      modifies this
      ensures history == old(history) + StartStates(old(Now()), e)
      ensures Now() == LastOr(StartStates(old(Now()), e), old(Now()))
      ensures r == Started <==>
        && !old(backend) && e.loads && e.starts && (old(door).Open? || e.binds)
        && ((e.known && old(config) == DoorUrl) || e.enable == Moved) && e.switches
      ensures r == LeftRunning <==>
        && !old(backend) && e.loads && e.starts && (old(door).Open? || e.binds)
        && !(e.known && old(config) == DoorUrl) && (e.enable.FailClosed? || e.enable.AlreadyIntegrated?)
      ensures old(backend) || !e.loads || !e.starts ==> Now() == old(Now())
      ensures !old(backend) && e.loads && e.starts ==>
        && backend == (r == Failed ==> e.stays) && capture == old(capture)
        && door == (if r == Started then Open(ToBackend)
                    else if old(door) == Closed && e.binds then Open(ToOriginal) else old(door))
        && config == (if door.Open? && !(e.known && old(config) == DoorUrl) && e.enable in {Moved, FailClosed(true)}
                      then DoorUrl else old(config))
      ensures r == Started ==> config == DoorUrl
    {
      hide SendStates;
      if backend || !e.loads || !e.starts {
        return Failed;
      }
      backend := true;
      history := history + [Now()];
      var open := StartFrontDoor(e.binds);
      if !open {
        StopService(e.stays);
        return Failed;
      }
      r := Send(e);
    }

    method Unhook(e: StopEnv) returns (ok: bool)
      modifies this
      ensures history == old(history) + UnhookStates(old(Now()), e)
      ensures Now() == LastOr(UnhookStates(old(Now()), e), old(Now()))
      ensures ok == ((old(door).Open? ==> e.switches) && e.stopOk)
      ensures old(door).Open? && !e.switches ==> door == old(door) && backend == old(backend)
      ensures backend != old(backend) ==> door in {Closed, Open(ToOriginal)}
      ensures config == old(config) && capture == old(capture)
      ensures door == if old(door).Open? && e.switches then Open(ToOriginal) else old(door)
      ensures backend == (old(backend) && (e.stays || (old(door).Open? && !e.switches)))
    {
      if door.Open? {
        var switched := SetUpstream(ToOriginal, e.switches);
        if !switched {
          return false;
        }
      } else {
        history := history + [Now()];
      }
      StopService(e.stays);
      ok := e.stopOk;
    }

    method StopGateway(e: StopEnv) returns (ok: bool)
      modifies this
      ensures history == old(history) + StopStates(old(Now()), e)
      ensures Now() == LastOr(StopStates(old(Now()), e), old(Now()))
      ensures ok == StopSucceeds(old(Now()), e)
      ensures var capturing := old(door) == Open(ToCapture);
        var left := if capturing then e.traffic.switched && e.traffic.ok else old(capture) ==> e.traffic.ok;
        var past := old(backend) && left && (old(door).Open? ==> e.switches);
        && ok == (!old(backend) || (past && e.stopOk))
        && config == old(config) && backend == (old(backend) && (past ==> e.stays))
        && door == (if past && old(door).Open? then Open(ToOriginal)
                    else if old(backend) && capturing && e.traffic.switched then Open(ToBackend) else old(door))
        && capture == (if old(backend) && (if capturing then e.traffic.switched else old(capture))
                       then !e.traffic.stops else old(capture))
    {
      hide TrafficStates, TrafficFails, UnhookStates;
      if !backend {
        return true;
      }
      var demoted := LeaveCapture(e.traffic);
      if !demoted {
        return false;
      }
      ok := Unhook(e);
    }

    method RestartGateway(stop: StopEnv, start: StartEnv) returns (r: Outcome)
      modifies this
      ensures history == old(history) + RestartStates(old(Now()), stop, start)
      ensures Now() == LastOr(RestartStates(old(Now()), stop, start), old(Now()))
      ensures var left :=
          if old(door) == Open(ToCapture) then stop.traffic.switched && stop.traffic.ok
          else old(capture) ==> stop.traffic.ok;
        var stopped := !old(backend) || (left && (old(door).Open? ==> stop.switches) && stop.stopOk && !stop.stays);
        var opens := stopped && start.loads && start.starts && (old(door).Open? || start.binds);
        var already := start.known && old(config) == DoorUrl;
        && (r == Started <==> opens && (already || start.enable == Moved) && start.switches)
        && (r == LeftRunning <==> opens && !already && (start.enable.FailClosed? || start.enable.AlreadyIntegrated?))
      ensures r == Started ==> Now() == World(DoorUrl, Open(ToBackend), true, capture)
      ensures r == LeftRunning ==> backend && door.Open?
    {
      hide StopStates, StartStates, StopSucceeds;
      var stopped := StopGateway(stop);
      if !stopped {
        return Failed;
      }
      r := StartGateway(start);
    }

    method Startup(integrated: bool, binds: bool)
      modifies this
      ensures history == old(history) + StartupStates(old(Now()), integrated, binds)
      ensures Now() == LastOr(StartupStates(old(Now()), integrated, binds), old(Now()))
      ensures Now() == old(Now()).(door := if integrated && binds && old(door) == Closed then Open(ToOriginal)
                                           else old(door))
    {
      if integrated {
        var _ := StartFrontDoor(binds);
      }
    }

    method Shutdown(e: ShutdownEnv)
      modifies this
      ensures history == old(history) + ShutdownStates(old(Now()), e)
      ensures Now() == LastOr(ShutdownStates(old(Now()), e), old(Now()))
      ensures door == Closed && config == (if e.restores then UserUrl else old(config))
      ensures backend == (old(backend) && e.stays)
      ensures capture == if (if old(door) == Open(ToCapture) then e.traffic.switched else old(capture))
                         then !e.traffic.stops else old(capture)
    {
      hide TrafficStates, TrafficFails, Switch;
      var _ := LeaveCapture(e.traffic);
      var _ := SetUpstream(ToOriginal, e.switches);
      DisableIntegration(e.restores);
      StopService(e.stays);
      door := Closed;
      history := history + [Now()];
    }

    method RollBack(e: RollbackEnv)
      modifies this
      ensures history == old(history) + RollbackStates(old(Now()), e)
      ensures Now() == LastOr(RollbackStates(old(Now()), e), old(Now()))
      ensures door.Open? <==> old(door).Open? || e.binds
      ensures door.Open? ==>
        door.target == if e.switches then ToBackend else if old(door).Open? then old(door).target else ToOriginal
      ensures config == if e.enable in {Moved, FailClosed(true)} then DoorUrl else old(config)
      ensures backend == old(backend) && capture == old(capture)
    {
      var _ := StartFrontDoor(e.binds);
      Integrate(e.enable);
      var _ := SetUpstream(ToBackend, e.switches);
    }

    method HandOff(e: HandoffEnv) returns (ok: bool)
      modifies this
      ensures history == old(history) + HandoffStates(old(Now()), e)
      ensures Now() == LastOr(HandoffStates(old(Now()), e), old(Now()))
      ensures ok == (e.restores && e.file && e.spawns && e.ready)
      ensures ok ==> config == UserUrl && door == Closed
      ensures !ok ==>
        var released := e.restores && e.file && e.spawns;
        && (door.Open? <==> (!released && old(door).Open?) || e.rollback.binds)
        && (door.Open? ==>
              door.target == if e.rollback.switches then ToBackend
                             else if released || old(door) == Closed || e.switches then ToOriginal
                             else old(door).target)
        && config == (if e.rollback.enable in {Moved, FailClosed(true)} then DoorUrl
                      else if e.restores then UserUrl else old(config))
      ensures backend == old(backend) && capture == old(capture)
    {
      hide RollbackStates, Switch;
      ok := false;
      var _ := SetUpstream(ToOriginal, e.switches);
      DisableIntegration(e.restores);
      if !e.restores || !e.file || !e.spawns {
        RollBack(e.rollback);
        return;
      }
      door := Closed;
      history := history + [Now()];
      if !e.ready {
        RollBack(e.rollback);
        return;
      }
      ok := true;
    }
  }
}
