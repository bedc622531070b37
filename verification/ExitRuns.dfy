/** Concrete runs in which an exit, a rollback or a second confirmation goes wrong. */
module ExitRuns {
  import opened FrontDoor
  import opened ExitHandoff
  import opened ExitSafety

  ghost predicate Reachable(s: State) { exists actions :: Possible(START, actions) && Run(START, actions) == s }

  lemma Next(s: State, a: Action) returns (t: State)
    requires Reachable(s) && Enabled(s, a)
    ensures t == Do(s, a) && Reachable(t)
  {
    hide Do, Enabled;
    t := Do(s, a);
    var actions :| Possible(START, actions) && Run(START, actions) == s;
    assert (actions + [a])[..|actions|] == actions;
    assert Run(START, actions + [a]) == t;
  }

  /** The gateway is on, Codex runs, the user wants to leave, and the config is restored. */
  lemma Restored() returns (s: State)
    ensures Reachable(s)
    ensures s == State([Allocating(0)], false, Asked, true, UserUrl, Desktop, [], {0}, 1)
  {
    hide HelperMay, HelperDo;
    assert Run(START, []) == START;
    s := Next(START, User(TurnOn(true, true)));
    s := Next(s, CodexStarts);
    s := Next(s, User(AskToClose(false)));
    s := Next(s, User(Confirm));
    s := Next(s, Desk(0, Detect(true, 0)));
    s := Next(s, Desk(0, RestoreConfig(true)));
  }

  /** The port is released to a new helper. */
  lemma ReleasedToHelper(s: State, c: nat) returns (t: State)
    requires Reachable(s) && !s.closing && c < |s.calls| && s.calls[c].Allocating?
    ensures Reachable(t)
    ensures t == s.(calls := s.calls[c := Waiting(|s.helpers|)], port := if s.port == Desktop then Free else s.port,
                    helpers := s.helpers + [Helper(s.calls[c].pid, Binding, false)])
  {
    hide UserMay, UserDo, HelperMay, HelperDo;
    t := Next(s, Desk(c, Allocate(true)));
    t := Next(t, Desk(c, Spawn(true)));
    t := Next(t, Desk(c, Release));
  }

  /** A helper takes the port and creates its marker. */
  lemma BoundAndMarking(s: State, i: nat) returns (t: State)
    requires Reachable(s) && s.port == Free && i < |s.helpers| && s.helpers[i].stage == Binding
    requires s.helpers[i].pid in s.alive
    ensures Reachable(t)
    ensures t == s.(port := Relay(i), helpers := s.helpers[i := Helper(s.helpers[i].pid, Marking, true)])
  {
    hide UserMay, UserDo, DesktopMay, DesktopDo;
    t := Next(s, Help(i, Bind));
    t := Next(t, Help(i, OpenProcess(true)));
    t := Next(t, Help(i, CreateMarker(true)));
  }

  lemma BoundAndMarked(s: State, i: nat) returns (t: State)
    requires Reachable(s) && s.port == Free && i < |s.helpers| && s.helpers[i].stage == Binding
    requires s.helpers[i].pid in s.alive
    ensures Reachable(t)
    ensures t == s.(port := Relay(i), helpers := s.helpers[i := Helper(s.helpers[i].pid, Relaying, true)])
  {
    hide UserMay, UserDo, DesktopMay, DesktopDo;
    t := BoundAndMarking(s, i);
    t := Next(t, Help(i, WriteMarker(true)));
  }

  lemma HelperReady() returns (s: State)
    ensures Reachable(s)
    ensures s == State([Waiting(0)], false, Asked, true, UserUrl, Relay(0), [Helper(0, Relaying, true)], {0}, 1)
  {
    s := Restored();
    s := ReleasedToHelper(s, 0);
    s := BoundAndMarked(s, 0);
  }

  lemma CodexLeft(s: State) returns (t: State)
    requires Reachable(s) && 0 in s.alive && |s.helpers| > 0 && s.helpers[0].pid == 0 && s.port == Relay(0)
    requires s.helpers[0].stage == Relaying
    ensures Reachable(t)
    ensures t == s.(alive := s.alive - {0}, port := Free,
                    helpers := s.helpers[0 := s.helpers[0].(stage := Leaving)])
  {
    hide UserMay, UserDo, DesktopMay, DesktopDo;
    t := Next(s, CodexExits(0));
    t := Next(t, Help(0, Close));
  }

  lemma RolledBack(s: State, c: nat) returns (t: State)
    requires Reachable(s) && !s.closing && c < |s.calls| && s.calls[c].Waiting? && s.calls[c].helper < |s.helpers|
    requires s.port != Desktop
    ensures Reachable(t)
    ensures t == RemoveMarker(s, s.calls[c].helper).(config := DoorUrl, calls := s.calls[c := Done])
  {
    hide UserMay, UserDo, HelperMay, HelperDo;
    t := Next(s, Desk(c, GiveUp));
    t := Next(t, Desk(c, Rebind(false)));
    t := Next(t, Desk(c, Reintegrate(true)));
  }

  /** The marker is seen, and the exit is confirmed on it. */
  lemma Committed(s: State, c: nat) returns (t: State)
    requires Reachable(s) && !s.closing && c < |s.calls| && s.calls[c].Waiting? && s.calls[c].helper < |s.helpers|
    requires s.helpers[s.calls[c].helper].marker
    ensures Reachable(t)
    ensures t == RemoveMarker(s, s.calls[c].helper).(
                   exit := Confirmed(HandedTo(s.calls[c].helper)), calls := s.calls[c := Quitting])
  {
    hide UserMay, UserDo, HelperMay, HelperDo;
    t := Next(s, Desk(c, SeeMarker));
    t := Next(t, Desk(c, Commit(false)));
  }

  // ---- a marker that says too much ----

  /** The marker is seen after its helper has closed the listener: that helper's app-server is gone. */
  lemma MarkerOutlivesListener()
    ensures exists s :: Reachable(s) && s.exit == Confirmed(HandedTo(0)) && s.port == Free && s.alive == {}
  {
    var s := HelperReady();
    s := CodexLeft(s);
    s := Committed(s, 0);
  }

  /** The write of a marker fails after the marker was created: the exit is confirmed, and the
      app-server runs on with nobody at the port. */
  lemma FailedMarkerStrands()
    ensures exists s :: Reachable(s) && s.exit == Confirmed(HandedTo(0)) && s.port == Free && 0 in s.alive &&
                        s.helpers == [Helper(0, Gone, false)]
  {
    hide UserMay, UserDo, DesktopMay, DesktopDo;
    var s := Restored();
    s := ReleasedToHelper(s, 0);
    s := BoundAndMarking(s, 0);
    s := Next(s, Help(0, WriteMarker(false)));
    s := Committed(s, 0);
  }

  // ---- rollbacks that strand Codex ----

  /** Codex is sent to a port on which nobody listens, and no confirmation is under way. */
  predicate Stranded(s: State) {
    s.config == DoorUrl && s.port == Free && s.gateway && forall c :: 0 <= c < |s.calls| ==> s.calls[c] == Done
  }

  /** The marker comes too late to be seen: the rollback finds the port taken, sends Codex back to
      it all the same, and the helper leaves with its app-server. */
  lemma LateMarkerStrands()
    ensures exists s :: Reachable(s) && Stranded(s) && |s.calls| == 1
  {
    var s := HelperReady();
    s := RolledBack(s, 0);
    s := CodexLeft(s);
  }

  /** The handoff succeeds but the desktop cannot quit. Confirming once more hands over again, to a
      second helper that cannot bind, and the rollback strands Codex once the first one leaves. */
  lemma SecondConfirmationStrands()
    ensures exists s :: Reachable(s) && Stranded(s) && |s.helpers| == 2
  {
    hide UserMay, UserDo, DesktopMay, DesktopDo;
    var s := SecondHelper();
    s := RolledBack(s, 1);
    s := Next(s, Help(1, BindTimeout));
    s := CodexLeft(s);
  }

  lemma SecondHelper() returns (s: State)
    ensures Reachable(s)
    ensures s == State([Done, Waiting(1)], false, Asked, true, UserUrl, Relay(0),
                       [Helper(0, Relaying, false), Helper(0, Binding, false)], {0}, 1)
  {
    s := HelperReady();
    s := Committed(s, 0);
    s := QuitFails(s);
    s := AnotherHandoff(s);
    s := ReleasedToHelper(s, 1);
  }

  lemma QuitFails(s: State) returns (t: State)
    requires Reachable(s) && !s.closing && s.calls == [Quitting]
    ensures Reachable(t) && t == s.(calls := [Done], exit := Asked)
  {
    hide UserMay, UserDo, HelperMay, HelperDo;
    t := Next(s, Desk(0, Quit(false, false)));
  }

  /** The exit is confirmed again, up to the restored config. */
  lemma AnotherHandoff(s: State) returns (t: State)
    requires Reachable(s) && !s.closing && s.exit == Asked && s.gateway && 0 in s.alive && |s.calls| == 1
    ensures Reachable(t) && t == s.(calls := s.calls + [Allocating(0)], config := UserUrl)
  {
    hide HelperMay, HelperDo;
    t := Next(s, User(Confirm));
    t := Next(t, Desk(1, Detect(true, 0)));
    t := Next(t, Desk(1, RestoreConfig(true)));
  }

  // ---- interference ----

  /** Two confirmations hand over at once. The helper of the second one gets the port, so the first one
      rolls back and sends Codex to the front door, and the second one confirms the exit all the same. */
  lemma ConfirmedTwice()
    ensures exists s :: Reachable(s) && s.exit == Confirmed(HandedTo(1)) && s.config == DoorUrl && s.port == Relay(1)
  {
    var s := Restored();
    s := AnotherHandoff(s);
    s := ReleasedToHelper(s, 0);
    s := ReleasedToHelper(s, 1);
    s := BoundAndMarked(s, 1);
    s := RolledBack(s, 0);
    s := Committed(s, 1);
  }

  /** The gateway is off, so the app-server is left aside; then it is turned on, and the exit is
      confirmed with that app-server at the gateway. */
  lemma TurnedOnWhileConfirming()
    ensures exists s :: Reachable(s) && s.exit.Confirmed? && s.gateway && LeftAside(s)
  {
    hide HelperMay, HelperDo;
    assert Run(START, []) == START;
    var s := Next(START, CodexStarts);
    s := Next(s, User(AskToClose(true)));
    s := Next(s, User(Confirm));
    s := Next(s, User(TurnOn(true, true)));
    s := Next(s, Desk(0, Commit(false)));
    assert RestsOn(s, NotNeeded(1)) && 0 in s.alive;
  }

  /** The gateway is restarted after the config was restored: the exit is confirmed with the config
      back at the front door, which only the helper keeps open. */
  lemma RestartedDuringHandoff()
    ensures exists s :: Reachable(s) && s.exit == Confirmed(HandedTo(0)) && s.config == DoorUrl && s.port == Relay(0)
  {
    var s := Restored();
    s := Restarted(s);
    s := ReleasedToHelper(s, 0);
    s := BoundAndMarked(s, 0);
    s := Committed(s, 0);
  }

  lemma Restarted(s: State) returns (t: State)
    requires Reachable(s) && !s.closing && s.port == Desktop
    ensures Reachable(t) && t == s.(gateway := true, config := DoorUrl)
  {
    hide DesktopMay, DesktopDo, HelperMay, HelperDo;
    t := Next(s, User(TurnOff));
    t := Next(t, User(TurnOn(true, true)));
  }

  /** The gateway is turned off while the desktop waits for its helper, and a start then takes the port
      back although it fails to redirect the config: the helper cannot bind. */
  lemma FailedStartTakesPort()
    ensures exists s ::
      Reachable(s) && s.calls == [Waiting(0)] && s.port == Desktop && s.config == UserUrl && !s.gateway
  {
    hide DesktopMay, DesktopDo, HelperMay, HelperDo;
    var s := Restored();
    s := ReleasedToHelper(s, 0);
    s := Next(s, User(TurnOff));
    s := Next(s, User(TurnOn(false, false)));
  }
}
