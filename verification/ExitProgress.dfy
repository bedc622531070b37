/** What the question to the user means, and that every confirmation and every helper gets to its end. */
module ExitProgress {
  import opened FrontDoor
  import opened ExitHandoff

  // ---- the question ----

  predicate TriesToClose(a: Action) {
    (a.User? && a.user.AskToClose?) || (a.Desk? && a.desk.Quit? && a.desk.ok)
  }

  function Busy(a: Action): bool
    requires TriesToClose(a)
  {
    if a.User? then a.user.busy else a.desk.busy
  }

  /** The confirmation could not be saved, or the desktop not quit. */
  predicate AsksAgain(a: Action) { a.Desk? && (a.desk == Persist(false) || (a.desk.Quit? && !a.desk.ok)) }

  predicate Answers(a: Action) { a.Desk? && a.desk.Commit? }

  /** The question is open after a step that asks it, and until it is declined or an exit is confirmed. */
  lemma QuestionExactly(s: State, a: Action)
    requires Enabled(s, a)
    ensures Do(s, a).exit == Asked <==>
      || AsksAgain(a)
      || (TriesToClose(a) && s.exit == NotAsked && (s.gateway || Busy(a)))
      || (s.exit == Asked && a != User(Decline) && !Answers(a))
    ensures Do(s, a).exit.Confirmed? <==>
      Answers(a) || (s.exit.Confirmed? && a != User(Decline) && !AsksAgain(a))
    ensures Do(s, a).exit.Confirmed? ==>
      Do(s, a).exit == if Answers(a) then Confirmed(s.calls[a.call].grounds) else s.exit
    ensures Do(s, a).closing <==>
      || s.closing
      || (TriesToClose(a) && (s.exit.Confirmed? || (s.exit == NotAsked && !s.gateway && !Busy(a))))
  {
    hide HelperDo;
    if a.Help? { HelperFrame(s, a.i, a.help); }
  }

  /** Declining takes the question back: nothing is left to confirm, and the next attempt to close asks
      anew if there is reason to, and closes otherwise. */
  lemma DeclineTakesBack(s: State, busy: bool)
    requires Enabled(s, User(Decline))
    ensures var t := Do(s, User(Decline));
      && t.exit == NotAsked && !Enabled(t, User(Confirm)) && Enabled(t, User(AskToClose(busy)))
      && var u := Do(t, User(AskToClose(busy)));
      && (u.exit == Asked && Enabled(u, User(Confirm)) <==> s.gateway || busy)
      && (u.closing <==> !s.gateway && !busy)
  {
    QuestionExactly(s, User(Decline));
  }

  /** A step after which there is something to confirm, or that confirms. */
  predicate Raises(s: State, a: Action) {
    AsksAgain(a) || Answers(a) || (TriesToClose(a) && (s.gateway || Busy(a)))
  }

  /** Over every run: what is not asked cannot be confirmed until a step that asks. */
  lemma {:induction false} StaysUnasked(s: State, actions: seq<Action>)
    requires s.exit == NotAsked && Possible(s, actions) && Never(s, actions, Raises)
    ensures Run(s, actions).exit == NotAsked && !Enabled(Run(s, actions), User(Confirm))
    decreases |actions|
  {
    hide Do, Raises;
    if actions != [] {
      var before := actions[..|actions| - 1];
      StaysUnasked(s, before);
      UnaskedStep(Run(s, before), actions[|actions| - 1]);
    }
  }

  lemma UnaskedStep(s: State, a: Action)
    requires Enabled(s, a) && s.exit == NotAsked && !Raises(s, a)
    ensures Do(s, a).exit == NotAsked
  {
    hide Do;
    QuestionExactly(s, a);
  }

  // ---- the switch ----

  /** What the user can do: everything until the desktop closes, but starting a gateway that runs or
      whose port a helper has, and confirming what was not asked. */
  lemma UserMayExactly(s: State, a: UserAct)
    ensures UserMay(s, a) <==>
      && !s.closing && (a == Confirm ==> s.exit.Asked? || s.exit.Confirmed?)
      && (a.TurnOn? ==> !s.gateway && !s.port.Relay?)
  {
  }

  /** A desktop that is gone holds nothing any more; what a helper holds stays. */
  lemma DeathReleases(s: State)
    requires Enabled(s, Die)
    ensures var t := Do(s, Die);
      && t.port != Desktop && !t.gateway && (s.port != Desktop ==> t.port == s.port)
      && t == s.(port := t.port, gateway := t.gateway)
  {
  }

  /** The gateway runs exactly from a start that succeeds, or leaves it running, to a stop or the end. */
  lemma GatewayExactly(s: State, a: Action)
    requires Enabled(s, a)
    ensures Do(s, a).gateway <==>
      if a.User? && a.user.TurnOn? then a.user.runs else s.gateway && a != User(TurnOff) && a != Die
  {
    hide HelperDo;
    if a.Help? { HelperFrame(s, a.i, a.help); }
  }

  /** A confirmation starts by looking for app-servers if the gateway runs, and at its decision if not. */
  lemma ConfirmationStarts(s: State)
    requires Enabled(s, User(Confirm))
    ensures var t := Do(s, User(Confirm));
      && t == s.(calls := t.calls) && |t.calls| == |s.calls| + 1 && t.calls[..|s.calls|] == s.calls
      && (s.gateway ==> t.calls[|s.calls|] == Detecting)
      && (!s.gateway ==> t.calls[|s.calls|] == Committing(NotNeeded(s.born)))
  {
  }

  // ---- confirmations end ----

  function Rank(pc: Pc): nat
    ensures Rank(pc) <= 11 && (Rank(pc) == 11 <==> pc == Done)
  {
    match pc
    case Detecting => 0
    case Restoring(_) => 1
    case Allocating(_) => 2
    case Spawning(_) => 3
    case Releasing(_) => 4
    case Waiting(_) => 5
    case Rebinding => 6
    case Redirecting => 7
    case Committing(_) => 8
    case Persisting => 9
    case Quitting => 10
    case Done => 11
  }

  /** The steps of call c in a run. */
  function StepsOf(actions: seq<Action>, c: nat): nat {
    if actions == [] then 0
    else
      var last := actions[|actions| - 1];
      StepsOf(actions[..|actions| - 1], c) + if last.Desk? && last.call == c then 1 else 0
  }

  function RankAt(s: State, c: nat): nat { if c < |s.calls| then Rank(s.calls[c]) else 0 }

  lemma StepAdvances(s: State, a: Action, c: nat)
    requires Enabled(s, a)
    ensures RankAt(Do(s, a), c) >= RankAt(s, c) + if a.Desk? && a.call == c then 1 else 0
  {
    hide HelperDo;
    if a.Help? { HelperFrame(s, a.i, a.help); }
    if a.Desk? { DesktopFrame(s, a.call, a.desk); }
  }

  /** No run holds more than eleven steps of one confirmation. */
  lemma {:induction false} CallsEnd(actions: seq<Action>, c: nat)
    requires Possible(START, actions)
    ensures StepsOf(actions, c) <= RankAt(Run(START, actions), c) <= 11
    decreases |actions|
  {
    hide Do, Enabled, RankAt;
    if actions != [] {
      var before := actions[..|actions| - 1];
      CallsEnd(before, c);
      StepAdvances(Run(START, before), actions[|actions| - 1], c);
    }
    RankIsBounded(Run(START, actions), c);
  }

  lemma RankIsBounded(s: State, c: nat)
    ensures RankAt(s, c) <= 11
  {
  }

  /** And none is ever stuck: as long as the desktop is not closing, an unfinished one has a step to
      take, in every interleaving. */
  lemma {:induction false} CallsNeverStick(actions: seq<Action>, c: nat)
    requires Possible(START, actions)
    ensures var s := Run(START, actions);
      !s.closing && c < |s.calls| && s.calls[c] != Done ==> exists a :: Enabled(s, Desk(c, a))
  {
    hide Possible, Run;
    StartAgrees();
    RunsKeep(START, actions);
    var s := Run(START, actions);
    if !s.closing && c < |s.calls| && s.calls[c] != Done {
      NextOf(s, c);
    }
  }

  lemma NextOf(s: State, c: nat)
    requires Inv(s) && !s.closing && c < |s.calls| && s.calls[c] != Done
    ensures exists a :: Enabled(s, Desk(c, a))
  {
    assert CallAgrees(s, s.calls[c]);
    var next := match s.calls[c]
      case Detecting => Detect(false, 0)
      case Restoring(_) => DesktopAct.RestoreConfig(true)
      case Allocating(_) => Allocate(true)
      case Spawning(_) => Spawn(true)
      case Releasing(_) => Release
      case Waiting(_) => GiveUp
      case Rebinding => Rebind(s.port == Desktop)
      case Redirecting => Reintegrate(true)
      case Committing(_) => Commit(true)
      case Persisting => Persist(true)
      case Quitting => Quit(true, true);
    assert Enabled(s, Desk(c, next));
  }

  // ---- how they end ----

  /** Once the restoration has begun, a confirmation ends by confirming an exit or by a rollback; without
      it, only because the app-servers could not be determined. */
  lemma EndsExactly(s: State, c: nat, a: DesktopAct)
    requires DesktopMay(s, c, a)
    ensures var pc, next := s.calls[c], DesktopDo(s, c, a).calls[c];
      && (next == Done <==> (pc == Detecting && !a.ok) || pc in {Redirecting, Quitting} || (pc == Persisting && !a.ok))
      && (next == Rebinding <==>
            ((pc.Restoring? || pc.Allocating? || pc.Spawning?) && !a.ok) || (pc.Waiting? && a == GiveUp))
      && (next == Redirecting <==> pc == Rebinding)
      && (next.Committing? <==> (pc == Detecting && a.ok && s.alive == {}) || (pc.Waiting? && a == SeeMarker))
      && (next == Persisting <==> a == Commit(true))
      && (next == Quitting <==> a == Commit(false) || a == Persist(true))
  {
  }

  /** Looking for app-servers can succeed with any one that runs, and with none if there is none. */
  lemma DetectsExactly(s: State, c: nat, pid: nat)
    requires c < |s.calls| && !s.closing && s.calls[c] == Detecting
    ensures DesktopMay(s, c, Detect(true, pid)) <==> pid in s.alive || s.alive == {}
    ensures s.alive == {} ==> DesktopDo(s, c, Detect(true, pid)).calls[c] == Committing(NotNeeded(s.born))
    ensures pid in s.alive ==> DesktopDo(s, c, Detect(true, pid)).calls[c] == Restoring(pid)
  {
    assert pid in s.alive ==> s.alive != {};
  }

  /** The rollback puts the config back if that succeeds, whatever became of the port. */
  lemma RollbackRedirects(s: State, c: nat, moved: bool)
    requires DesktopMay(s, c, Reintegrate(moved))
    ensures DesktopDo(s, c, Reintegrate(moved)).config == if moved then DoorUrl else s.config
    ensures DesktopDo(s, c, Reintegrate(moved)).port == s.port
  {
  }

  // ---- the app-server a helper serves ----

  /** At some moment of the run a confirmation detected this app-server, and it ran. */
  ghost predicate Detected(actions: seq<Action>, pid: nat)
    requires Possible(START, actions)
  {
    exists k :: 0 <= k < |actions| && DetectedAt(actions, pid, k)
  }

  ghost predicate DetectedAt(actions: seq<Action>, pid: nat, k: nat) {
    && k < |actions| && Possible(START, actions[..k]) && actions[k].Desk? && actions[k].desk == Detect(true, pid)
    && pid in Run(START, actions[..k]).alive
  }

  predicate CarriesPid(pc: Pc) { pc.Restoring? || pc.Allocating? || pc.Spawning? }

  ghost predicate PidsDetected(actions: seq<Action>, s: State)
    requires Possible(START, actions)
  {
    && (forall c :: 0 <= c < |s.calls| && CarriesPid(s.calls[c]) ==> Detected(actions, s.calls[c].pid))
    && (forall i :: 0 <= i < |s.helpers| ==> Detected(actions, s.helpers[i].pid))
  }

  lemma {:induction false} DetectedStays(actions: seq<Action>, pid: nat)
    requires actions != [] && Possible(START, actions) && Detected(actions[..|actions| - 1], pid)
    ensures Detected(actions, pid)
  {
    hide Possible, Run;
    var before := actions[..|actions| - 1];
    var k :| 0 <= k < |before| && DetectedAt(before, pid, k);
    assert before[..k] == actions[..k];
    assert DetectedAt(actions, pid, k);
  }

  /** Where the identifiers of a state after one step come from. */
  lemma CallPid(s: State, a: Action, c: nat)
    requires Enabled(s, a) && c < |Do(s, a).calls| && CarriesPid(Do(s, a).calls[c])
    ensures var pid := Do(s, a).calls[c].pid;
      || (c < |s.calls| && CarriesPid(s.calls[c]) && s.calls[c].pid == pid)
      || (a == Desk(c, Detect(true, pid)) && pid in s.alive)
  {
    hide HelperDo, DesktopDo;
    if a.Help? { HelperFrame(s, a.i, a.help); }
    if a.Desk? {
      DesktopFrame(s, a.call, a.desk);
      if a.call == c { CarriedPid(s, c, a.desk); }
    }
  }

  lemma CarriedPid(s: State, c: nat, a: DesktopAct)
    requires DesktopMay(s, c, a) && CarriesPid(DesktopDo(s, c, a).calls[c])
    ensures var pid := DesktopDo(s, c, a).calls[c].pid;
      (CarriesPid(s.calls[c]) && s.calls[c].pid == pid) || (a == Detect(true, pid) && pid in s.alive)
  {
  }

  lemma HelperPid(s: State, a: Action, i: nat)
    requires Enabled(s, a) && i < |Do(s, a).helpers|
    ensures i < |s.helpers| ==> Do(s, a).helpers[i].pid == s.helpers[i].pid
    ensures i >= |s.helpers| ==>
      a.Desk? && a.call < |s.calls| && s.calls[a.call] == Spawning(Do(s, a).helpers[i].pid)
  {
    hide DesktopDo, HelperDo;
    if a.Desk? { SpawnedPid(s, a.call, a.desk, i); }
    if a.Help? {
      HelperFrame(s, a.i, a.help);
      HelperAdvances(s, a.i, a.help);
    }
  }

  lemma SpawnedPid(s: State, c: nat, a: DesktopAct, i: nat)
    requires DesktopMay(s, c, a) && i < |DesktopDo(s, c, a).helpers|
    ensures i < |s.helpers| ==> DesktopDo(s, c, a).helpers[i].pid == s.helpers[i].pid
    ensures i >= |s.helpers| ==> s.calls[c] == Spawning(DesktopDo(s, c, a).helpers[i].pid)
  {
  }

  /** In every interleaving each helper is there for an app-server that a confirmation detected. */
  lemma {:induction false} HelpersServeDetected(actions: seq<Action>)
    requires Possible(START, actions)
    ensures PidsDetected(actions, Run(START, actions))
    decreases |actions|
  {
    hide Do, Enabled, Detected;
    if actions != [] {
      var before, a := actions[..|actions| - 1], actions[|actions| - 1];
      var s, t := Run(START, before), Run(START, actions);
      HelpersServeDetected(before);
      forall pid | Detected(before, pid) ensures Detected(actions, pid) { DetectedStays(actions, pid); }
      forall c | 0 <= c < |t.calls| && CarriesPid(t.calls[c]) ensures Detected(actions, t.calls[c].pid) {
        CallPid(s, a, c);
        if a == Desk(c, Detect(true, t.calls[c].pid)) && t.calls[c].pid in s.alive {
          JustDetected(actions, t.calls[c].pid);
        }
      }
      forall i | 0 <= i < |t.helpers| ensures Detected(actions, t.helpers[i].pid) {
        HelperPid(s, a, i);
      }
    }
  }

  lemma {:induction false} JustDetected(actions: seq<Action>, pid: nat)
    requires actions != [] && Possible(START, actions) && actions[|actions| - 1].Desk?
    requires actions[|actions| - 1].desk == Detect(true, pid)
    requires pid in Run(START, actions[..|actions| - 1]).alive
    ensures Detected(actions, pid)
  {
    assert DetectedAt(actions, pid, |actions| - 1);
  }

  // ---- helpers end ----

  /** A helper always has a step, but while its app-server runs. */
  lemma HelpersNeverStick(s: State, i: nat)
    requires i < |s.helpers| && s.helpers[i].stage != Gone
    ensures (exists a :: HelperMay(s, i, a)) <==> !(s.helpers[i].stage == Relaying && s.helpers[i].pid in s.alive)
  {
    var next := match s.helpers[i].stage
      case Binding => BindTimeout
      case Bound => OpenProcess(false)
      case Holding => CreateMarker(true)
      case Marking => WriteMarker(true)
      case Relaying => HelperAct.Close
      case Leaving => Remove
      case Gone => Remove;
    assert HelperMay(s, i, next) || s.helpers[i].stage == Relaying;
  }

  function Age(stage: Stage): nat {
    match stage
    case Binding => 0
    case Bound => 1
    case Holding => 2
    case Marking => 3
    case Relaying => 4
    case Leaving => 5
    case Gone => 6
  }

  /** It never goes back, changes no other helper, and leaves no marker behind if it ends after its
      app-server; one that fails is gone at once, and only a marker that was written makes it relay. */
  lemma HelperAdvances(s: State, i: nat, a: HelperAct)
    requires HelperMay(s, i, a)
    ensures var before, after := s.helpers[i], HelperDo(s, i, a).helpers[i];
      && Age(before.stage) < Age(after.stage) && after.pid == before.pid
      && (after.stage == Gone <==>
            a in {BindTimeout, OpenProcess(false), CreateMarker(false), WriteMarker(false), Remove})
      && (after.stage != Gone ==> Age(after.stage) == Age(before.stage) + 1)
      && after.marker == (a == CreateMarker(true) || (before.marker && a != Remove))
    ensures forall j :: 0 <= j < |s.helpers| && j != i ==> HelperDo(s, i, a).helpers[j] == s.helpers[j]
    ensures a == OpenProcess(true) ==> s.helpers[i].pid in s.alive
  {
  }
}
