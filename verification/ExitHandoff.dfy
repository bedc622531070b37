/** Leaving the desktop while Codex runs: exit confirmations, the handoff of the front-door port,
    and the relay helpers as processes of their own (desktop-app/traffic_bindings.go,
    desktop-app/handoff.go, desktop-app/handoff_windows.go). A run is any interleaving of the user,
    the steps of any number of confirmations, the helpers' steps and the lives of the Codex
    app-servers. */
module ExitHandoff {
  import opened FrontDoor

  /** A helper binds the port, opens its app-server, creates its marker and finishes writing it; once
      the app-server has exited it closes its listener and then removes the marker. */
  datatype Stage = Binding | Bound | Holding | Marking | Relaying | Leaving | Gone
  datatype Helper = Helper(pid: nat, stage: Stage, marker: bool)

  datatype Port = Free | Desktop | Relay(helper: nat)

  /** Why an exit was confirmed: no app-server needed the port at that moment, or a helper has it. */
  datatype Grounds = NotNeeded(since: nat) | HandedTo(helper: nat)
  datatype Exit = NotAsked | Asked | Confirmed(grounds: Grounds)

  /** Where a call of ConfirmExit is. */
  datatype Pc =
    | Detecting
    | Restoring(pid: nat) | Allocating(pid: nat) | Spawning(pid: nat) | Releasing(helper: nat) | Waiting(helper: nat)
    | Rebinding | Redirecting
    | Committing(grounds: Grounds) | Persisting | Quitting | Done

  /** `alive`: the app-server processes that run; identifiers below `born` were used before. */
  datatype State = State(
    calls: seq<Pc>, closing: bool, exit: Exit, gateway: bool, config: Config, port: Port,
    helpers: seq<Helper>, alive: set<nat>, born: nat)

  /** A start of the gateway that gets as far as the front door may still fail: `runs` is whether the
      gateway runs afterwards, `moved` whether the config was sent to the front door. */
  datatype UserAct = TurnOn(runs: bool, moved: bool) | TurnOff | AskToClose(busy: bool) | Decline | Confirm

  /** Steps of ConfirmExit and handoffFrontDoor; `ok` is whether the step succeeds. */
  datatype DesktopAct =
    | Detect(ok: bool, pid: nat) | RestoreConfig(ok: bool) | Allocate(ok: bool) | Spawn(ok: bool) | Release
    | SeeMarker | GiveUp | Rebind(ok: bool) | Reintegrate(moved: bool)
    | Commit(discard: bool) | Persist(ok: bool) | Quit(ok: bool, busy: bool)

  datatype HelperAct =
    | Bind | BindTimeout | OpenProcess(ok: bool) | CreateMarker(ok: bool) | WriteMarker(ok: bool) | Close | Remove

  datatype Action =
    | User(user: UserAct)
    | Desk(call: nat, desk: DesktopAct)
    | Die
    | Help(i: nat, help: HelperAct)
    | CodexStarts
    | CodexExits(pid: nat)

  // ---- the user ----

  /** ConfirmExit holds no lock while it works, so until the desktop closes the gateway can be switched,
      the exit declined or confirmed once more, and the window closed in the middle of a confirmation. */
  predicate UserMay(s: State, a: UserAct) {
    !s.closing &&
    match a
    case TurnOn(_, _) => !s.gateway && s.port in {Free, Desktop}
    case TurnOff => true
    case AskToClose(_) => true
    case Decline => true
    case Confirm => s.exit != NotAsked
  }

  /** beforeClose: a confirmed exit closes; otherwise a running gateway, or anything else that is
      busy, asks first. */
  function TryClose(s: State, busy: bool): State {
    if s.exit.Confirmed? then s.(closing := true)
    else if s.exit == Asked then s
    else if s.gateway || busy then s.(exit := Asked)
    else s.(closing := true)
  }

  function UserDo(s: State, a: UserAct): State
    requires UserMay(s, a)
  {
    match a
    case TurnOn(runs, moved) => s.(gateway := runs, port := Desktop, config := if moved then DoorUrl else s.config)
    case TurnOff => s.(gateway := false)
    case AskToClose(busy) => TryClose(s, busy)
    case Decline => s.(exit := NotAsked)
    case Confirm => s.(calls := s.calls + [if s.gateway then Detecting else Committing(NotNeeded(s.born))])
  }

  // ---- call c of ConfirmExit ----

  predicate DesktopMay(s: State, c: nat, a: DesktopAct) {
    c < |s.calls| && !s.closing &&
    var pc := s.calls[c];
    match a
    case Detect(ok, pid) => pc == Detecting && (ok && s.alive != {} ==> pid in s.alive)
    case RestoreConfig(_) => pc.Restoring?
    case Allocate(_) => pc.Allocating?
    case Spawn(_) => pc.Spawning?
    case Release => pc.Releasing?
    case SeeMarker => pc.Waiting? && pc.helper < |s.helpers| && s.helpers[pc.helper].marker
    case GiveUp => pc.Waiting? && pc.helper < |s.helpers|
    case Rebind(ok) => pc == Rebinding && (if ok then s.port in {Free, Desktop} else s.port != Desktop)
    case Reintegrate(_) => pc == Redirecting
    case Commit(_) => pc.Committing?
    case Persist(_) => pc == Persisting
    case Quit(_, _) => pc == Quitting
  }

  function RemoveMarker(s: State, i: nat): State
    requires i < |s.helpers|
  {
    s.(helpers := s.helpers[i := s.helpers[i].(marker := false)])
  }

  function Goto(s: State, c: nat, pc: Pc): State
    requires c < |s.calls|
  {
    s.(calls := s.calls[c := pc])
  }

  function DesktopDo(s: State, c: nat, a: DesktopAct): State
    requires DesktopMay(s, c, a)
  {
    var pc := s.calls[c];
    match a
    case Detect(ok, pid) =>
      Goto(s, c, if !ok then Done else if s.alive == {} then Committing(NotNeeded(s.born)) else Restoring(pid))
    case RestoreConfig(ok) =>
      if ok then Goto(s, c, Allocating(pc.pid)).(config := UserUrl) else Goto(s, c, Rebinding)
    case Allocate(ok) => Goto(s, c, if ok then Spawning(pc.pid) else Rebinding)
    case Spawn(ok) =>
      if ok then Goto(s, c, Releasing(|s.helpers|)).(helpers := s.helpers + [Helper(pc.pid, Binding, false)])
      else Goto(s, c, Rebinding)
    case Release => Goto(s, c, Waiting(pc.helper)).(port := if s.port == Desktop then Free else s.port)
    case SeeMarker => RemoveMarker(Goto(s, c, Committing(HandedTo(pc.helper))), pc.helper)
    case GiveUp => RemoveMarker(Goto(s, c, Rebinding), pc.helper)
    case Rebind(ok) => Goto(s, c, Redirecting).(port := if ok then Desktop else s.port)
    case Reintegrate(moved) => Goto(s, c, Done).(config := if moved then DoorUrl else s.config)
    case Commit(discard) => Goto(s, c, if discard then Persisting else Quitting).(exit := Confirmed(pc.grounds))
    case Persist(ok) => if ok then Goto(s, c, Quitting) else Goto(s, c, Done).(exit := Asked)
    case Quit(ok, busy) => if ok then TryClose(Goto(s, c, Done), busy) else Goto(s, c, Done).(exit := Asked)
  }

  // ---- helper i ----

  predicate HelperMay(s: State, i: nat, a: HelperAct) {
    i < |s.helpers| &&
    match a
    case Bind => s.helpers[i].stage == Binding && s.port == Free
    case BindTimeout => s.helpers[i].stage == Binding
    case OpenProcess(ok) => s.helpers[i].stage == Bound && (ok ==> s.helpers[i].pid in s.alive)
    case CreateMarker(_) => s.helpers[i].stage == Holding
    case WriteMarker(_) => s.helpers[i].stage == Marking
    case Close => s.helpers[i].stage == Relaying && s.helpers[i].pid !in s.alive
    case Remove => s.helpers[i].stage == Leaving
  }

  function SetStage(s: State, i: nat, stage: Stage, marker: bool): State
    requires i < |s.helpers|
  {
    s.(helpers := s.helpers[i := s.helpers[i].(stage := stage, marker := marker)])
  }

  /** A helper that ends closes its listener. A marker on disk stays. */
  function End(s: State, i: nat, stage: Stage): State
    requires i < |s.helpers|
  {
    SetStage(s, i, stage, s.helpers[i].marker).(port := if s.port == Relay(i) then Free else s.port)
  }

  /** Writing the marker can fail before the file is there and after. */
  function HelperDo(s: State, i: nat, a: HelperAct): State
    requires HelperMay(s, i, a)
  {
    var marker := s.helpers[i].marker;
    match a
    case Bind => SetStage(s, i, Bound, marker).(port := Relay(i))
    case BindTimeout => End(s, i, Gone)
    case OpenProcess(ok) => if ok then SetStage(s, i, Holding, marker) else End(s, i, Gone)
    case CreateMarker(ok) => if ok then SetStage(s, i, Marking, true) else End(s, i, Gone)
    case WriteMarker(ok) => if ok then SetStage(s, i, Relaying, marker) else End(s, i, Gone)
    case Close => End(s, i, Leaving)
    case Remove => SetStage(s, i, Gone, false)
  }

  // ---- runs ----

  predicate Enabled(s: State, a: Action) {
    match a
    case User(user) => UserMay(s, user)
    case Desk(c, desk) => DesktopMay(s, c, desk)
    case Die => s.closing
    case Help(i, help) => HelperMay(s, i, help)
    case CodexStarts => true
    case CodexExits(pid) => pid in s.alive
  }

  function Do(s: State, a: Action): State
    requires Enabled(s, a)
  {
    match a
    case User(user) => UserDo(s, user)
    case Desk(c, desk) => DesktopDo(s, c, desk)
    case Die => s.(port := if s.port == Desktop then Free else s.port, gateway := false)
    case Help(i, help) => HelperDo(s, i, help)
    case CodexStarts => s.(alive := s.alive + {s.born}, born := s.born + 1)
    case CodexExits(pid) => s.(alive := s.alive - {pid})
  }

  const START := State([], false, NotAsked, false, UserUrl, Free, [], {}, 0)

  predicate Possible(s: State, actions: seq<Action>)
    decreases |actions|, 0
  {
    actions == [] ||
    (var before := actions[..|actions| - 1];
     Possible(s, before) && Enabled(Run(s, before), actions[|actions| - 1]))
  }

  function Run(s: State, actions: seq<Action>): State
    requires Possible(s, actions)
    decreases |actions|, 1
  {
    if actions == [] then s else Do(Run(s, actions[..|actions| - 1]), actions[|actions| - 1])
  }

  // ---- what every interleaving keeps ----

  /** The port is held by exactly the helper that is between binding it and closing its listener. */
  predicate HelpersAgree(s: State) {
    && (s.port.Relay? ==> s.port.helper < |s.helpers|)
    && (forall i :: 0 <= i < |s.helpers| ==>
          && (s.helpers[i].stage in {Bound, Holding, Marking, Relaying} <==> s.port == Relay(i))
          && s.helpers[i].pid < s.born)
    && (forall pid :: pid in s.alive ==> pid < s.born)
  }

  predicate GroundsAgree(s: State, grounds: Grounds) {
    match grounds
    case NotNeeded(since) => since <= s.born
    case HandedTo(i) => i < |s.helpers|
  }

  predicate CallAgrees(s: State, pc: Pc) {
    && (pc.Restoring? || pc.Allocating? || pc.Spawning? ==> pc.pid < s.born)
    && (pc.Releasing? || pc.Waiting? ==> pc.helper < |s.helpers|)
    && (pc.Committing? ==> GroundsAgree(s, pc.grounds))
  }

  predicate Finishing(s: State) { exists c :: 0 <= c < |s.calls| && s.calls[c] in {Persisting, Quitting} }

  /** A confirmed exit is that of a call still at work, or the desktop closes on it. */
  predicate CallsAgree(s: State) {
    && (forall c :: 0 <= c < |s.calls| ==> CallAgrees(s, s.calls[c]))
    && (s.exit.Confirmed? ==> GroundsAgree(s, s.exit.grounds))
    && (s.exit.Confirmed? && !s.closing ==> Finishing(s))
    && (s.closing ==> s.exit.Confirmed? || !s.gateway)
  }

  predicate Inv(s: State) { HelpersAgree(s) && CallsAgree(s) }

  lemma UserKeeps(s: State, a: UserAct)
    requires Inv(s) && UserMay(s, a)
    ensures Inv(UserDo(s, a))
  {
    var t := UserDo(s, a);
    assert forall c :: 0 <= c < |s.calls| ==> t.calls[c] == s.calls[c];
  }

  lemma DesktopKeepsHelpers(s: State, c: nat, a: DesktopAct)
    requires Inv(s) && DesktopMay(s, c, a)
    ensures HelpersAgree(DesktopDo(s, c, a))
  {
  }

  /** A step of one call moves no other one. */
  lemma DesktopFrame(s: State, c: nat, a: DesktopAct)
    requires DesktopMay(s, c, a)
    ensures var t := DesktopDo(s, c, a);
      && |t.calls| == |s.calls| && t.calls == s.calls[c := t.calls[c]]
      && |t.helpers| >= |s.helpers| && t.alive == s.alive && t.born == s.born
  {
  }

  lemma DesktopKeepsCalls(s: State, c: nat, a: DesktopAct)
    requires Inv(s) && DesktopMay(s, c, a)
    ensures CallsAgree(DesktopDo(s, c, a))
  {
    hide Finishing;
    var t := DesktopDo(s, c, a);
    DesktopFrame(s, c, a);
    assert CallAgrees(s, s.calls[c]);
    assert CallAgrees(t, t.calls[c]);
    DesktopFinishes(s, c, a);
  }

  lemma DesktopFinishes(s: State, c: nat, a: DesktopAct)
    requires DesktopMay(s, c, a) && (s.exit.Confirmed? ==> Finishing(s))
    ensures var t := DesktopDo(s, c, a); t.exit.Confirmed? && !t.closing ==> Finishing(t)
  {
    var t := DesktopDo(s, c, a);
    DesktopFrame(s, c, a);
    assert forall d :: 0 <= d < |s.calls| && d != c ==> t.calls[d] == s.calls[d];
    if t.exit.Confirmed? && !t.closing {
      assert t.calls[c] in {Persisting, Quitting} || s.calls[c] !in {Persisting, Quitting};
    }
  }

  /** A helper changes nothing of the desktop's. */
  lemma HelperFrame(s: State, i: nat, a: HelperAct)
    requires HelperMay(s, i, a)
    ensures var t := HelperDo(s, i, a);
      && t == s.(helpers := t.helpers, port := t.port) && |t.helpers| == |s.helpers|
      && (t.port == Desktop <==> s.port == Desktop)
  {
  }

  lemma HelperKeeps(s: State, i: nat, a: HelperAct)
    requires Inv(s) && HelperMay(s, i, a)
    ensures Inv(HelperDo(s, i, a))
  {
    HelperFrame(s, i, a);
  }

  lemma CodexKeeps(s: State, pid: nat)
    requires Inv(s)
    ensures Inv(Do(s, CodexStarts))
    ensures pid in s.alive ==> Inv(Do(s, CodexExits(pid)))
  {
  }

  lemma DoKeeps(s: State, a: Action)
    requires Inv(s) && Enabled(s, a)
    ensures Inv(Do(s, a))
  {
    hide UserDo, DesktopDo, HelperDo;
    match a
    case User(user) => UserKeeps(s, user);
    case Desk(c, desk) => DesktopKeepsHelpers(s, c, desk); DesktopKeepsCalls(s, c, desk);
    case Die =>
    case Help(i, help) => HelperKeeps(s, i, help);
    case CodexStarts => CodexKeeps(s, 0);
    case CodexExits(pid) => CodexKeeps(s, pid);
  }

  lemma {:induction false} RunsKeep(s: State, actions: seq<Action>)
    requires Inv(s) && Possible(s, actions)
    ensures Inv(Run(s, actions))
    decreases |actions|
  {
    hide Do, Enabled, Inv;
    if actions != [] {
      RunsKeep(s, actions[..|actions| - 1]);
      DoKeeps(Run(s, actions[..|actions| - 1]), actions[|actions| - 1]);
    }
  }

  /** No step of the run is a `bad` one. */
  predicate Never(s: State, actions: seq<Action>, bad: (State, Action) -> bool)
    requires Possible(s, actions)
    decreases |actions|
  {
    actions == [] ||
    (var before := actions[..|actions| - 1];
     Never(s, before, bad) && !bad(Run(s, before), actions[|actions| - 1]))
  }

  /** What only `bad` steps break holds over every run without one. */
  lemma {:induction false} RunsKeepUnless(actions: seq<Action>, good: State -> bool, bad: (State, Action) -> bool)
    requires Possible(START, actions) && Never(START, actions, bad) && good(START)
    requires forall s, a :: Inv(s) && good(s) && Enabled(s, a) && !bad(s, a) ==> good(Do(s, a))
    ensures good(Run(START, actions))
    decreases |actions|
  {
    hide Do, Enabled, Inv;
    StartAgrees();
    if actions != [] {
      var before := actions[..|actions| - 1];
      RunsKeep(START, before);
      RunsKeepUnless(before, good, bad);
    }
  }

  lemma StartAgrees()
    ensures Inv(START)
  {
  }
}
