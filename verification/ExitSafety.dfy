/** What a confirmed exit rests on, in every interleaving: which step makes a marker say too much, which
    ones break what confirmations promise, and which ones leave a config at a port without the desktop. */
module ExitSafety {
  import opened FrontDoor
  import opened ExitHandoff

  // ---- markers and helpers ----

  /** The exit is confirmed, or about to be, on these grounds. */
  predicate RestsOn(s: State, grounds: Grounds) {
    s.exit == Confirmed(grounds) || exists c :: 0 <= c < |s.calls| && s.calls[c] == Committing(grounds)
  }

  /** The helper holds the port with its app-server open, or that app-server is gone. */
  predicate Relayed(s: State, i: nat) {
    && i < |s.helpers|
    && if s.helpers[i].stage in {Marking, Relaying} then s.port == Relay(i)
       else s.helpers[i].stage in {Leaving, Gone} && s.helpers[i].pid !in s.alive
  }

  /** The helper's marker is on disk, or was seen and an exit rests on it. */
  predicate CountedOn(s: State, i: nat)
    requires i < |s.helpers|
  {
    s.helpers[i].marker || RestsOn(s, HandedTo(i))
  }

  predicate Trusted(s: State) { forall i :: 0 <= i < |s.helpers| && CountedOn(s, i) ==> Relayed(s, i) }

  /** Writing the marker fails after the file was created, with the app-server still running: the
      helper ends, the file stays, and the desktop only looks whether there is one. */
  predicate Botches(s: State, a: Action) {
    a.Help? && a.help == WriteMarker(false) && a.i < |s.helpers| &&
    CountedOn(s, a.i) && s.helpers[a.i].pid in s.alive
  }

  lemma UserRests(s: State, a: UserAct, grounds: Grounds)
    requires UserMay(s, a) && RestsOn(UserDo(s, a), grounds)
    ensures RestsOn(s, grounds) || (a == Confirm && !s.gateway && grounds == NotNeeded(s.born))
  {
  }

  /** Only a detection that finds no app-server and a marker give new grounds. */
  lemma DesktopRests(s: State, c: nat, a: DesktopAct, grounds: Grounds)
    requires DesktopMay(s, c, a) && RestsOn(DesktopDo(s, c, a), grounds)
    ensures || RestsOn(s, grounds)
            || (a.Detect? && s.alive == {} && grounds == NotNeeded(s.born))
            || (a == SeeMarker && s.calls[c].Waiting? && grounds == HandedTo(s.calls[c].helper))
  {
    var t := DesktopDo(s, c, a);
    assert forall d :: 0 <= d < |s.calls| && d != c ==> t.calls[d] == s.calls[d];
  }

  lemma RestsAgree(s: State, grounds: Grounds)
    requires Inv(s) && RestsOn(s, grounds)
    ensures GroundsAgree(s, grounds)
  {
  }

  lemma UserTrusts(s: State, a: UserAct)
    requires Inv(s) && Trusted(s) && UserMay(s, a)
    ensures Trusted(UserDo(s, a))
  {
    hide RestsOn;
    var t := UserDo(s, a);
    forall i | 0 <= i < |t.helpers| && CountedOn(t, i) ensures Relayed(t, i) {
      if RestsOn(t, HandedTo(i)) { UserRests(s, a, HandedTo(i)); }
      assert CountedOn(s, i);
    }
  }

  lemma DesktopTrusts(s: State, c: nat, a: DesktopAct)
    requires Inv(s) && Trusted(s) && DesktopMay(s, c, a)
    ensures Trusted(DesktopDo(s, c, a))
  {
    hide RestsOn;
    var t := DesktopDo(s, c, a);
    forall i | 0 <= i < |t.helpers| && CountedOn(t, i) ensures Relayed(t, i) {
      if RestsOn(t, HandedTo(i)) {
        DesktopRests(s, c, a, HandedTo(i));
        if RestsOn(s, HandedTo(i)) { RestsAgree(s, HandedTo(i)); }
      }
      assert CountedOn(s, i);
    }
  }

  lemma HelperTrustsExactly(s: State, i: nat, a: HelperAct)
    requires Inv(s) && Trusted(s) && HelperMay(s, i, a)
    ensures Trusted(HelperDo(s, i, a)) <==> !Botches(s, Help(i, a))
  {
    hide RestsOn;
    var t := HelperDo(s, i, a);
    HelperFrame(s, i, a);
    forall j | 0 <= j < |t.helpers| && CountedOn(t, j) && !Botches(s, Help(i, a)) ensures Relayed(t, j) {
      SameRests(s, t, HandedTo(j));
      assert CountedOn(s, j) || (j == i && a.CreateMarker?);
    }
    if Botches(s, Help(i, a)) {
      SameRests(s, t, HandedTo(i));
      assert CountedOn(t, i) && !Relayed(t, i);
    }
  }

  lemma SameRests(s: State, t: State, grounds: Grounds)
    requires t.calls == s.calls && t.exit == s.exit
    ensures RestsOn(t, grounds) <==> RestsOn(s, grounds)
  {
  }

  lemma CodexTrusts(s: State, pid: nat)
    requires Inv(s) && Trusted(s)
    ensures Trusted(Do(s, CodexStarts))
    ensures pid in s.alive ==> Trusted(Do(s, CodexExits(pid)))
  {
    forall i | 0 <= i < |s.helpers| && CountedOn(Do(s, CodexStarts), i) ensures Relayed(Do(s, CodexStarts), i) {
      assert CountedOn(s, i);
    }
    forall i | pid in s.alive && 0 <= i < |s.helpers| && CountedOn(Do(s, CodexExits(pid)), i)
      ensures Relayed(Do(s, CodexExits(pid)), i)
    {
      assert CountedOn(s, i);
    }
  }

  /** That write is the one step after which a marker, or an exit, counts on a helper that left a
      running app-server alone. */
  lemma TrustedExactly(s: State, a: Action)
    requires Inv(s) && Trusted(s) && Enabled(s, a)
    ensures Trusted(Do(s, a)) <==> !Botches(s, a)
  {
    hide UserDo, DesktopDo, HelperDo, Inv, Trusted, RestsOn;
    match a
    case User(user) => UserTrusts(s, user);
    case Desk(c, desk) => DesktopTrusts(s, c, desk);
    case Die => DeathTrusts(s);
    case Help(i, help) => HelperTrustsExactly(s, i, help);
    case CodexStarts => CodexTrusts(s, 0);
    case CodexExits(pid) => CodexTrusts(s, pid);
  }

  lemma DeathTrusts(s: State)
    requires Trusted(s) && s.closing
    ensures Trusted(Do(s, Die))
  {
    forall i | 0 <= i < |s.helpers| && CountedOn(Do(s, Die), i) ensures Relayed(Do(s, Die), i) {
      assert CountedOn(s, i);
    }
  }

  lemma {:induction false} RunsStayTrusted(actions: seq<Action>)
    requires Possible(START, actions) && Never(START, actions, Botches)
    ensures Trusted(Run(START, actions))
  {
    hide Do, Enabled, Inv, Trusted, Botches, Possible, Run, Never;
    forall s, a | Inv(s) && Trusted(s) && Enabled(s, a) && !Botches(s, a) ensures Trusted(Do(s, a)) {
      TrustedExactly(s, a);
    }
    StartIsSound();
    RunsKeepUnless(actions, Trusted, Botches);
  }

  // ---- the config, the port and the gateway ----

  predicate HandsOver(pc: Pc) { pc.Allocating? || pc.Spawning? || pc.Releasing? || pc.Waiting? }

  /** A call hands the port over, or an exit rests on having done so. */
  ghost predicate AwaitsConfig(s: State) {
    (exists c :: 0 <= c < |s.calls| && HandsOver(s.calls[c])) || exists i: nat :: RestsOn(s, HandedTo(i))
  }

  predicate AwaitsPort(s: State) { exists c :: 0 <= c < |s.calls| && s.calls[c].Waiting? }

  /** An exit rests on no app-server needing the port, and one that already ran then still does. */
  ghost predicate LeftAside(s: State) {
    exists since: nat, pid :: RestsOn(s, NotNeeded(since)) && pid in s.alive && pid < since
  }

  /** What the confirmations under way promise: the config is the user's from its restoration on, the
      desktop keeps off the port while a helper is to take it, and the gateway serves no app-server
      that was left aside. */
  ghost predicate Promised(s: State) {
    && (AwaitsConfig(s) ==> s.config == UserUrl)
    && (AwaitsPort(s) ==> s.port != Desktop)
    && (s.gateway ==> !LeftAside(s))
  }

  /** The gateway is turned on when it may not be any more, or the rollback of one confirmation takes
      back what another one needs. */
  ghost predicate Interferes(s: State, a: Action) {
    || (a.User? && a.user.TurnOn? &&
        (AwaitsPort(s) || (a.user.moved && AwaitsConfig(s)) || (a.user.runs && LeftAside(s))))
    || (a.Desk? && a.desk == Rebind(true) && AwaitsPort(s))
    || (a.Desk? && a.desk == Reintegrate(true) && AwaitsConfig(s))
  }

  lemma UserPromisesExactly(s: State, a: UserAct)
    requires Inv(s) && Promised(s) && UserMay(s, a)
    ensures Promised(UserDo(s, a)) <==> !Interferes(s, User(a))
  {
    hide RestsOn;
    var t := UserDo(s, a);
    forall grounds | RestsOn(t, grounds)
      ensures RestsOn(s, grounds) || (a == Confirm && !s.gateway && grounds == NotNeeded(s.born))
    {
      UserRests(s, a, grounds);
    }
    if a.TurnOn? {
      forall grounds ensures RestsOn(t, grounds) <==> RestsOn(s, grounds) { SameRests(s, t, grounds); }
    }
    assert forall c :: 0 <= c < |s.calls| ==> t.calls[c] == s.calls[c];
  }

  lemma DesktopPromisesExactly(s: State, c: nat, a: DesktopAct)
    requires Inv(s) && Promised(s) && DesktopMay(s, c, a)
    ensures Promised(DesktopDo(s, c, a)) <==> !Interferes(s, Desk(c, a))
  {
    hide RestsOn;
    var t := DesktopDo(s, c, a);
    forall grounds | RestsOn(t, grounds)
      ensures || RestsOn(s, grounds)
              || (a.Detect? && s.alive == {} && grounds == NotNeeded(s.born))
              || (a == SeeMarker && s.calls[c].Waiting? && grounds == HandedTo(s.calls[c].helper))
    {
      DesktopRests(s, c, a, grounds);
    }
    DesktopFrame(s, c, a);
    if a.Rebind? || a.Reintegrate? { RollbackRests(s, c, a); }
  }

  lemma RollbackRests(s: State, c: nat, a: DesktopAct)
    requires DesktopMay(s, c, a) && (a.Rebind? || a.Reintegrate?)
    ensures var t := DesktopDo(s, c, a);
      (AwaitsConfig(s) ==> AwaitsConfig(t)) && (AwaitsPort(s) ==> AwaitsPort(t))
  {
    var t := DesktopDo(s, c, a);
    assert forall d :: 0 <= d < |s.calls| && d != c ==> t.calls[d] == s.calls[d];
    forall grounds | RestsOn(s, grounds) ensures RestsOn(t, grounds) {
    }
  }

  lemma HelperPromises(s: State, i: nat, a: HelperAct)
    requires Inv(s) && Promised(s) && HelperMay(s, i, a)
    ensures Promised(HelperDo(s, i, a))
  {
    hide HelperDo, RestsOn;
    HelperFrame(s, i, a);
    forall grounds ensures RestsOn(HelperDo(s, i, a), grounds) <==> RestsOn(s, grounds) {
      SameRests(s, HelperDo(s, i, a), grounds);
    }
  }

  lemma CodexPromises(s: State, pid: nat)
    requires Inv(s) && Promised(s)
    ensures Promised(Do(s, CodexStarts))
    ensures pid in s.alive ==> Promised(Do(s, CodexExits(pid)))
  {
  }

  /** Nothing else breaks the promises of the confirmations. */
  lemma PromisedExactly(s: State, a: Action)
    requires Inv(s) && Promised(s) && Enabled(s, a)
    ensures Promised(Do(s, a)) <==> !Interferes(s, a)
  {
    hide UserDo, DesktopDo, HelperDo, Inv, Promised, RestsOn;
    match a
    case User(user) => UserPromisesExactly(s, user);
    case Desk(c, desk) => DesktopPromisesExactly(s, c, desk);
    case Die => DeathPromises(s);
    case Help(i, help) => HelperPromises(s, i, help);
    case CodexStarts => CodexPromises(s, 0);
    case CodexExits(pid) => CodexPromises(s, pid);
  }

  lemma DeathPromises(s: State)
    requires Promised(s) && s.closing
    ensures Promised(Do(s, Die))
  {
    forall grounds ensures RestsOn(Do(s, Die), grounds) <==> RestsOn(s, grounds) { SameRests(s, Do(s, Die), grounds); }
  }

  lemma {:induction false} RunsKeepPromises(actions: seq<Action>)
    requires Possible(START, actions) && Never(START, actions, Interferes)
    ensures Promised(Run(START, actions))
  {
    hide Do, Enabled, Inv, Promised, Interferes, Possible, Run, Never;
    forall s, a | Inv(s) && Promised(s) && Enabled(s, a) && !Interferes(s, a) ensures Promised(Do(s, a)) {
      PromisedExactly(s, a);
    }
    StartIsSound();
    RunsKeepUnless(actions, Promised, Interferes);
  }

  lemma StartIsSound()
    ensures Trusted(START) && Promised(START) && Anchored(START)
  {
  }

  // ---- the grounds of an exit ----

  /** In every interleaving the desktop closes only on a confirmed exit or without a gateway. Unless a
      marker's write fails after its file is there: the marker of a helper, and an exit that rests on
      it, mean that this helper holds the port with its app-server open, or that the app-server is
      gone. Unless somebody interferes: the config is the user's as long as a handoff or such an exit
      needs it, and an exit that nobody needed the port for leaves no app-server at the gateway. */
  lemma {:induction false} ExitIsGrounded(actions: seq<Action>)
    requires Possible(START, actions)
    ensures var s := Run(START, actions);
      && (s.closing ==> s.exit.Confirmed? || !s.gateway)
      && (forall i: nat :: RestsOn(s, HandedTo(i)) ==> i < |s.helpers|)
    ensures Never(START, actions, Botches) ==>
      var s := Run(START, actions);
      forall i :: 0 <= i < |s.helpers| && (s.helpers[i].marker || RestsOn(s, HandedTo(i))) ==>
        || (s.port == Relay(i) && s.helpers[i].stage in {Marking, Relaying})
        || (s.helpers[i].stage in {Leaving, Gone} && s.helpers[i].pid !in s.alive)
    ensures Never(START, actions, Interferes) ==>
      var s := Run(START, actions);
      && (forall i: nat :: RestsOn(s, HandedTo(i)) ==> s.config == UserUrl)
      && (forall since: nat, pid :: s.gateway && RestsOn(s, NotNeeded(since)) && pid in s.alive ==> since <= pid)
      && (forall c :: 0 <= c < |s.calls| && s.calls[c].Waiting? ==> s.config == UserUrl && s.port != Desktop)
  {
    hide Possible, Run, Never;
    StartAgrees();
    RunsKeep(START, actions);
    var s := Run(START, actions);
    forall i: nat | RestsOn(s, HandedTo(i)) ensures i < |s.helpers| { RestsAgree(s, HandedTo(i)); }
    if Never(START, actions, Botches) {
      RunsStayTrusted(actions);
      forall i | 0 <= i < |s.helpers| && (s.helpers[i].marker || RestsOn(s, HandedTo(i)))
        ensures Relayed(s, i)
      {
        assert CountedOn(s, i);
      }
    }
    if Never(START, actions, Interferes) {
      RunsKeepPromises(actions);
    }
  }

  /** A handoff succeeds only by seeing its own helper's marker. */
  lemma CommitIsGrounded(s: State, a: Action, c: nat, i: nat)
    requires Inv(s) && Enabled(s, a) && c < |Do(s, a).calls| && Do(s, a).calls[c] == Committing(HandedTo(i))
    requires c < |s.calls| ==> !s.calls[c].Committing?
    ensures a == Desk(c, SeeMarker) && s.calls[c] == Waiting(i) && s.helpers[i].marker
    ensures Trusted(s) ==> Relayed(s, i)
    ensures Promised(s) ==> s.config == UserUrl
  {
    hide Inv, Trusted, Promised;
    CommitsByMarker(s, a, c, i);
    if Trusted(s) { MarkerIsTrusted(s, i); }
    if Promised(s) { HandoverIsPromised(s, c); }
  }

  lemma CommitsByMarker(s: State, a: Action, c: nat, i: nat)
    requires Enabled(s, a) && c < |Do(s, a).calls| && Do(s, a).calls[c] == Committing(HandedTo(i))
    requires c < |s.calls| ==> !s.calls[c].Committing?
    ensures a == Desk(c, SeeMarker) && s.calls[c] == Waiting(i) && i < |s.helpers| && s.helpers[i].marker
  {
    hide HelperDo, DesktopDo;
    if a.Help? { HelperFrame(s, a.i, a.help); }
    if a.Desk? {
      DesktopFrame(s, a.call, a.desk);
      DesktopCommits(s, a.call, a.desk);
    }
  }

  lemma DesktopCommits(s: State, c: nat, a: DesktopAct)
    requires DesktopMay(s, c, a)
    ensures var pc := DesktopDo(s, c, a).calls[c]; pc.Committing? && pc.grounds.HandedTo? ==>
      a == SeeMarker && s.calls[c] == Waiting(pc.grounds.helper)
  {
  }

  lemma MarkerIsTrusted(s: State, i: nat)
    requires Trusted(s) && i < |s.helpers| && s.helpers[i].marker
    ensures Relayed(s, i)
  {
    assert CountedOn(s, i);
  }

  lemma HandoverIsPromised(s: State, c: nat)
    requires Promised(s) && c < |s.calls| && HandsOver(s.calls[c])
    ensures s.config == UserUrl
  {
  }

  // ---- a config that names the front door ----

  predicate RollsBack(pc: Pc) { pc in {Rebinding, Redirecting} }

  predicate SomeRollBack(s: State) { exists c :: 0 <= c < |s.calls| && RollsBack(s.calls[c]) }

  predicate OthersRollBack(s: State, c: nat) { exists d :: 0 <= d < |s.calls| && d != c && RollsBack(s.calls[d]) }

  /** Outside rollbacks, a config that names the front door finds the desktop's own listener there. */
  predicate Anchored(s: State) { s.config == DoorUrl && !s.closing && !SomeRollBack(s) ==> s.port == Desktop }

  /** The last rollback under way sends Codex back to a port it did not get back, or the port is
      released although the config was redirected again in the meantime. */
  predicate Unbinds(s: State, a: Action) {
    a.Desk? && !OthersRollBack(s, a.call) &&
    match a.desk
    case Reintegrate(moved) => s.port != Desktop && (moved || s.config == DoorUrl)
    case Release => s.config == DoorUrl
    case _ => false
  }

  lemma DesktopAnchorsExactly(s: State, c: nat, a: DesktopAct)
    requires Anchored(s) && DesktopMay(s, c, a)
    ensures Anchored(DesktopDo(s, c, a)) <==> !Unbinds(s, Desk(c, a))
  {
    hide SomeRollBack, OthersRollBack;
    var t := DesktopDo(s, c, a);
    DesktopFrame(s, c, a);
    CallRollsBack(s, t, c);
    CallRollsBack(s, s, c);
  }

  lemma CallRollsBack(s: State, t: State, c: nat)
    requires c < |s.calls| == |t.calls| && t.calls == s.calls[c := t.calls[c]]
    ensures SomeRollBack(t) <==> OthersRollBack(s, c) || RollsBack(t.calls[c])
  {
    assert forall d :: 0 <= d < |s.calls| && d != c ==> t.calls[d] == s.calls[d];
  }

  lemma UserAnchors(s: State, a: UserAct)
    requires Anchored(s) && UserMay(s, a)
    ensures Anchored(UserDo(s, a))
  {
    assert forall c :: 0 <= c < |s.calls| ==> UserDo(s, a).calls[c] == s.calls[c];
  }

  /** Nothing else leaves a config at a port the desktop does not hold. */
  lemma AnchoredExactly(s: State, a: Action)
    requires Inv(s) && Anchored(s) && Enabled(s, a)
    ensures Anchored(Do(s, a)) <==> !Unbinds(s, a)
  {
    hide UserDo, DesktopDo, HelperDo;
    match a
    case User(user) => UserAnchors(s, user);
    case Desk(c, desk) => DesktopAnchorsExactly(s, c, desk);
    case Die =>
    case Help(i, help) => HelperFrame(s, i, help);
    case CodexStarts =>
    case CodexExits(pid) =>
  }

  lemma {:induction false} RunsStayAnchored(actions: seq<Action>)
    requires Possible(START, actions) && Never(START, actions, Unbinds)
    ensures Anchored(Run(START, actions))
  {
    hide Do, Enabled, Inv, Anchored, Unbinds, Possible, Run, Never;
    forall s, a | Inv(s) && Anchored(s) && Enabled(s, a) && !Unbinds(s, a) ensures Anchored(Do(s, a)) {
      AnchoredExactly(s, a);
    }
    StartIsSound();
    RunsKeepUnless(actions, Anchored, Unbinds);
  }
}
