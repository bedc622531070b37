/** What the config redirect gives back: the user's own config over runs without foreign edits,
    the verdict of a startup after a crash, and what a restore may change. */
module RedirectRecovery {
  import opened Prelude
  import opened ConfigRedirect
  import opened RedirectSafety

  function Redirected(original: File): File {
    Text(WithUrl(DocumentOf(original), CAPTURE_BASE_URL))
  }

  /** Putting the previous URL back undoes the redirect, key for key, and an absent file stays absent. */
  lemma RestoreUndoesRedirect(original: File, r: Recovery)
    requires original != Broken && Remembers(original, r)
    ensures RestoredFile(r, DocumentOf(Redirected(original))) == original
  {
    var document := DocumentOf(original);
    assert WithPrevious(WithUrl(document, CAPTURE_BASE_URL), r.previous) == document;
  }

  predicate Remembers(original: File, r: Recovery) {
    && r.previous == UrlOnDisk(original) && r.backup == original.Text?
    && r.applied == CAPTURE_BASE_URL && r.hashAfter == DocumentOf(Redirected(original))
  }

  predicate Swapped(original: File, d: Disk) {
    && (d.file == original || d.file == Redirected(original))
    && (d.record.Some? ==> Remembers(original, d.record.value))
  }

  predicate AllSwapped(original: File, states: seq<Disk>) { forall d :: d in states ==> Swapped(original, d) }

  predicate NoEdits(steps: seq<Step>) { forall k :: 0 <= k < |steps| ==> !steps[k].event.Edit? }

  lemma CleanupSwaps(original: File, d: Disk, e: CleanupEnv)
    requires Swapped(original, d)
    ensures AllSwapped(original, CleanupStates(d, e))
  {
    hide CleanupStates, Remembers;
    if d.record.Some? {
      CleanupMeaning(d, e);
      forall s | s in CleanupStates(d, e) ensures Swapped(original, s) {
        Remembered(original, d.record.value, s.record.value);
      }
    } else {
      NoCleanup(d, e);
    }
  }

  lemma NoCleanup(d: Disk, e: CleanupEnv)
    requires d.record == None
    ensures CleanupStates(d, e) == []
  {
  }

  lemma Remembered(original: File, r: Recovery, s: Recovery)
    requires Remembers(original, r)
    requires s.previous == r.previous && s.applied == r.applied && s.hashAfter == r.hashAfter && s.backup == r.backup
    ensures Remembers(original, s)
  {
  }

  lemma StartSwaps(original: File, d: Disk, e: StartEnv)
    requires Swapped(original, d) && !Captured(original) && Claimed(d)
    ensures AllSwapped(original, StartStates(d, e))
  {
    hide CleanupStates, ApplyStates, Url;
    if StartAccepts(d, e) {
      CandidateRedirects(original);
      assert d.file == original;
      var r := FreshRecord(d.file);
      var prepared := PutRecord(d, r, e.prepared);
      var started := PutRecord(prepared, r.(phase := CaptureStarted), e.started);
      CleanupSwaps(original, prepared, e.cleanup);
      CleanupSwaps(original, started, e.cleanup);
      if e.prepared == Fine && e.started == Fine {
        ApplySwaps(original, started, r.(phase := CaptureStarted), e);
      }
    }
  }

  lemma ApplySwaps(original: File, d: Disk, r: Recovery, e: StartEnv)
    requires Swapped(original, d) && d.record == Some(r)
    ensures AllSwapped(original, ApplyStates(d, original, r, e))
  {
    hide CleanupStates, Url;
    var published := PutFile(d, Text(r.hashAfter), e.publish);
    var claimed := PutRecord(published, r.(phase := IntegrationApplied, active := true), e.applied);
    CleanupSwaps(original, published, e.cleanup);
    CleanupSwaps(original, PutFile(published, original, e.rollback), e.cleanup);
    CleanupSwaps(original, PutFile(claimed, original, e.rollback), e.cleanup);
  }

  lemma RestoreSwaps(original: File, d: Disk, confirm: bool, e: RestoreEnv)
    requires Swapped(original, d) && d.record.Some? && original != Broken && !Captured(original)
    ensures AllSwapped(original, RestoreStates(d, d.record.value, confirm, e))
  {
    hide RestoredFile, WithUrl, Url;
    RestoreUndoesRedirect(original, d.record.value);
    Remembered(original, d.record.value, d.record.value.(active := false));
    assert d.file == original ==> UrlOnDisk(d.file) == d.record.value.previous;
  }

  lemma EventSwaps(original: File, m: Machine, event: Event)
    requires original != Broken && !Captured(original)
    requires Sound(m) && Allowed(m, event) && Swapped(original, m.disk) && !event.Edit?
    ensures AllSwapped(original, Writes(m.disk, event))
  {
    hide StartStates, RestoreStates, RestartStates, Url;
    match event
    case Startup(write) => StartupClaims(m.disk, write);
    case Start(e) => StartSwaps(original, m.disk, e);
    case Stop(e) => if m.disk.record.Some? { RestoreSwaps(original, m.disk, false, e); }
    case Restore(confirm, e) => if m.disk.record.Some? { RestoreSwaps(original, m.disk, confirm, e); }
    case Restart(e) => RestartSwaps(original, m.disk, e);
  }

  lemma RestartSwaps(original: File, d: Disk, e: RestartEnv)
    requires Swapped(original, d)
    ensures AllSwapped(original, RestartStates(d, e))
  {
  }

  lemma StepSwaps(original: File, m: Machine, step: Step)
    requires original != Broken && !Captured(original)
    requires Sound(m) && Allowed(m, step.event) && Swapped(original, m.disk) && !step.event.Edit?
    ensures Swapped(original, Play(m, step).disk)
  {
    hide Writes, Sound, Allowed, Swapped;
    EventSwaps(original, m, step.event);
    var writes := Writes(m.disk, step.event);
    if Crashes(m, step) {
      assert forall d :: d in writes[..step.crash.value] ==> d in writes;
    }
  }

  /** Over every run without foreign edits the config is either the user's own file or that file
      with the capture URL, and every record remembers the user's own file. */
  lemma {:induction false} RunsOnlySwap(original: File, m: Machine, steps: seq<Step>)
    requires original != Broken && !Captured(original)
    requires Sound(m) && Swapped(original, m.disk) && Possible(m, steps) && NoEdits(steps)
    ensures Sound(PlayAll(m, steps)) && Swapped(original, PlayAll(m, steps).disk)
    decreases |steps|
  {
    hide Sound, Allowed, Play, Swapped;
    if steps != [] {
      StepKeeps(m, steps[0]);
      StepSwaps(original, m, steps[0]);
      RunsOnlySwap(original, Play(m, steps[0]), steps[1..]);
    }
  }

  const SMOOTH := RestoreEnv(true, Fine, true, Fine)

  /** After any run without foreign edits that ends in a crash, one startup and one unconfirmed
      restore give back the user's own file, absent if it was absent. */
  lemma {:induction false} RestoreAlwaysGivesBack(original: File, steps: seq<Step>)
    requires original != Broken && !Captured(original)
    requires Possible(Machine(Disk(original, None), false), steps) && NoEdits(steps)
    ensures var crashed := PlayAll(Machine(Disk(original, None), false), steps).disk;
      var started := LastOr(ReconcileStates(crashed, Fine), crashed);
      var restored := LastOr(RestoreConfigStates(started, false, SMOOTH), started);
      restored.file == original && (restored.record.Some? ==> !restored.record.value.active)
  {
    hide PlayAll, Possible, ReconcileStates, RestoredFile, Url;
    var m := Machine(Disk(original, None), false);
    RunsOnlySwap(original, m, steps);
    var crashed := PlayAll(m, steps).disk;
    StartupSwaps(original, crashed);
    var started := LastOr(ReconcileStates(crashed, Fine), crashed);
    CandidateRedirects(original);
    if started.record.Some? {
      RestoreUndoesRedirect(original, started.record.value);
    }
  }

  lemma StartupSwaps(original: File, d: Disk)
    requires Swapped(original, d) && Owned(d)
    ensures Swapped(original, LastOr(ReconcileStates(d, Fine), d)) && Claimed(LastOr(ReconcileStates(d, Fine), d))
  {
    StartupClaims(d, Fine);
  }

  /** A successful start followed by an unfaulted stop leaves the config as it was. */
  lemma StartThenStop(d: Disk, e: StartEnv)
    requires Claimed(d) && StartAccepts(d, e)
    requires e.prepared == Fine && e.capture == Ready && e.started == Fine
    requires e.publish == Fine && e.verified && e.applied == Fine
    ensures var started := LastOr(StartStates(d, e), d);
      && started.file == Redirected(d.file)
      && LastOr(StopStates(started, SMOOTH), started).file == d.file
  {
    hide CleanupStates, RestoredFile;
    var started := LastOr(StartStates(d, e), d);
    CandidateRedirects(d.file);
    RestoreUndoesRedirect(d.file, started.record.value);
  }

  /** A start gets as far as publishing, and nothing puts the original file back. */
  predicate LeavesRedirect(e: StartEnv) {
    && e.prepared == Fine && e.capture == Ready && e.started == Fine
    && (e.publish == KeptNew || (e.publish == Fine && ((e.verified && e.applied == Fine) || e.rollback == KeptOld)))
  }

  /** A start that fails leaves the config unchanged exactly outside of that. */
  lemma StartChangesConfigExactly(d: Disk, e: StartEnv)
    requires Claimed(d) && StartAccepts(d, e)
    ensures LastOr(StartStates(d, e), d).file != d.file <==> LeavesRedirect(e)
  {
    hide CleanupStates, ApplyStates, Url;
    CandidateRedirects(d.file);
    var r := FreshRecord(d.file);
    var prepared := PutRecord(d, r, e.prepared);
    var started := PutRecord(prepared, r.(phase := CaptureStarted), e.started);
    if e.prepared == Fine {
      CleanupMeaning(prepared, e.cleanup);
      CleanupMeaning(started, e.cleanup);
      assert !Captured(d.file);
      if e.started == Fine && e.capture == Ready {
        ApplyChangesConfigExactly(started, d.file, r.(phase := CaptureStarted), e);
      }
    }
  }

  lemma ApplyChangesConfigExactly(d: Disk, original: File, r: Recovery, e: StartEnv)
    requires d == Disk(original, Some(r)) && original != Text(r.hashAfter)
    requires e.prepared == Fine && e.capture == Ready && e.started == Fine
    ensures LastOr(ApplyStates(d, original, r, e), d).file != original <==> LeavesRedirect(e)
  {
    hide CleanupStates, Url;
    var published := PutFile(d, Text(r.hashAfter), e.publish);
    var claimed := PutRecord(published, r.(phase := IntegrationApplied, active := true), e.applied);
    CleanupMeaning(published, e.cleanup);
    CleanupMeaning(PutFile(published, original, e.rollback), e.cleanup);
    CleanupMeaning(PutFile(claimed, original, e.rollback), e.cleanup);
  }

  // ---- the verdict of a startup ----

  /** At every crash point of a start the next startup reports a pending restore exactly when the
      candidate is on disk and the start had not given it up; otherwise the record is inactive, or
      already restored if it was active. */
  lemma CrashVerdict(d: Disk, e: StartEnv, s: Disk)
    requires Claimed(d) && StartAccepts(d, e) && s in StartStates(d, e) && s.record.Some?
    ensures var verdict := Classify(s.record.value, DocumentOf(s.file)).status;
      && (verdict == PendingRestore <==> Captured(s.file) && (s.record.value.active || s.record.value.phase != Aborted))
      && (!Captured(s.file) ==> verdict == if s.record.value.active then AlreadyRestored else NotActive)
  {
    hide StartStates, Url;
    CandidateRedirects(d.file);
    StartShapes(d, e);
  }

  /** The shapes of disk a start passes through. */
  lemma StartShapes(d: Disk, e: StartEnv)
    requires Claimed(d) && StartAccepts(d, e)
    ensures forall s :: s in StartStates(d, e) ==>
      (s.file == d.file || s.file == Redirected(d.file)) && StartShape(d, s)
  {
    hide CleanupStates, ApplyStates, Url;
    CandidateRedirects(d.file);
    var r := FreshRecord(d.file);
    var prepared := PutRecord(d, r, e.prepared);
    var started := PutRecord(prepared, r.(phase := CaptureStarted), e.started);
    if e.prepared == Fine {
      CleanupShapes(d, prepared, e.cleanup);
      CleanupShapes(d, started, e.cleanup);
      if e.started == Fine {
        ApplyShapes(d, started, r.(phase := CaptureStarted), e);
      }
    }
  }

  predicate StartShape(d: Disk, s: Disk) {
    || (s.record == d.record && s.file == d.file)
    || (&& s.record.Some? && Remembers(d.file, s.record.value)
        && (s.record.value.active || s.record.value.phase in {Prepared, CaptureStarted, Aborted}))
  }

  lemma CleanupShapes(d: Disk, s: Disk, e: CleanupEnv)
    requires s.record.Some? && Remembers(d.file, s.record.value)
    requires s.record.value.active || s.record.value.phase in {Prepared, CaptureStarted}
    ensures forall c :: c in CleanupStates(s, e) ==> c.file == s.file && StartShape(d, c)
  {
    hide CleanupStates, Url;
    CleanupMeaning(s, e);
  }

  lemma ApplyShapes(d: Disk, s: Disk, r: Recovery, e: StartEnv)
    requires s == Disk(d.file, Some(r)) && Remembers(d.file, r) && r.phase == CaptureStarted
    ensures forall c :: c in ApplyStates(s, d.file, r, e) ==>
      (c.file == d.file || c.file == Redirected(d.file)) && StartShape(d, c)
  {
    hide CleanupStates, Url;
    var published := PutFile(s, Text(r.hashAfter), e.publish);
    var claimed := PutRecord(published, r.(phase := IntegrationApplied, active := true), e.applied);
    CleanupShapes(d, published, e.cleanup);
    CleanupShapes(d, PutFile(published, d.file, e.rollback), e.cleanup);
    CleanupShapes(d, PutFile(claimed, d.file, e.rollback), e.cleanup);
  }

  /** For a fixed config that can be read, two startups reach a record that no further startup
      rewrites, and no startup writes the config. */
  lemma StartupsSettle(d: Disk, third: Fault)
    requires d.file != Broken
    ensures var once := LastOr(ReconcileStates(d, Fine), d);
      var twice := LastOr(ReconcileStates(once, Fine), once);
      ReconcileStates(twice, third) == [] && once.file == d.file && twice.file == d.file
  {
    hide Url;
  }

  /** One startup is enough exactly unless it finds the config already restored: that record is
      reported once more, as inactive. */
  lemma OneStartupSettlesExactly(d: Disk, second: Fault)
    requires d.file != Broken && d.record.Some?
    ensures ReconcileStates(LastOr(ReconcileStates(d, Fine), d), second) == []
      <==> Classify(d.record.value, DocumentOf(d.file)).status != AlreadyRestored
  {
    hide Url;
  }

  // ---- what a restore may change ----

  /** A restore changes nothing but the URL key; without confirmation it writes the config only if
      the URL on disk is exactly the one that was applied; and what it writes is the previous URL. */
  lemma RestoreIsNarrow(d: Disk, r: Recovery, confirm: bool, e: RestoreEnv, s: Disk)
    requires WellFormed(r) && s in RestoreStates(d, r, confirm, e)
    ensures forall k :: k != URL_KEY ==>
      && (k in DocumentOf(s.file) <==> k in DocumentOf(d.file))
      && (k in DocumentOf(d.file) ==> DocumentOf(s.file)[k] == DocumentOf(d.file)[k])
    ensures s.file != d.file ==> UrlOnDisk(s.file) == r.previous && (confirm || UrlOnDisk(d.file) == Some(r.applied))
  {
    PreviousUrl(DocumentOf(d.file), r.previous);
    assert DocumentOf(RestoredFile(r, DocumentOf(d.file))) == WithPrevious(DocumentOf(d.file), r.previous);
    hide WithPrevious, RestoredFile;
  }

  // ---- the failing families ----

  const QUIET := CleanupEnv(None, Fine)
  const GOOD := StartEnv(true, true, Fine, Ready, Fine, Fine, true, Fine, Fine, QUIET)

  /** A publication that reports failure after its rename (a directory that could not be synced)
      leaves the redirect behind an aborted record; the next start takes it for the user's own. */
  lemma UnsyncedPublishOrphans()
    ensures var d := Disk(Text(map[]), None);
      var first := LastOr(StartStates(d, GOOD.(publish := KeptNew)), d);
      var second := LastOr(StartStates(first, GOOD), first);
      && Captured(first.file) && first.record.value.phase == Aborted && !first.record.value.active
      && second.record.value.previous == Some(CAPTURE_BASE_URL)
  {
  }

  /** A startup that cannot write its verdict after a crash (the error is ignored) leads there too. */
  lemma LostVerdictOrphans()
    ensures var d := Disk(Text(map[]), None);
      var crashed := StartStates(d, GOOD)[2];
      var started := LastOr(ReconcileStates(crashed, KeptOld), crashed);
      var second := LastOr(StartStates(started, GOOD), started);
      Owned(crashed) && second.record.value.previous == Some(CAPTURE_BASE_URL)
  {
  }

  /** After a crash between publication and claim, a foreign edit that leaves a redirect in the config
      keeps it recoverable exactly when it restores the very document that was published. */
  lemma EditInTheGapExactly(d: Disk, file: File)
    requires d.record.Some? && WellFormed(d.record.value) && !d.record.value.active && Captured(file)
    requires d.record.value.phase == Prepared || d.record.value.phase == CaptureStarted
    ensures var edited := d.(file := file);
      Claimed(LastOr(ReconcileStates(edited, Fine), edited)) <==> DocumentOf(file) == d.record.value.hashAfter
  {
    hide WellFormed;
    StartupOfEdited(d, file);
  }

  lemma StartupOfEdited(d: Disk, file: File)
    requires d.record.Some? && WellFormed(d.record.value) && !d.record.value.active && Captured(file)
    requires d.record.value.phase == Prepared || d.record.value.phase == CaptureStarted
    ensures var last := LastOr(ReconcileStates(d.(file := file), Fine), d.(file := file));
      && last.file == file && last.record.Some? && WellFormed(last.record.value)
      && (last.record.value.active <==> DocumentOf(file) == d.record.value.hashAfter)
  {
  }

  /** So any change to another key there orphans the redirect, whatever config the start began with. */
  lemma EditInTheGapOrphans(d: Disk, key: string, value: string)
    requires Claimed(d) && StartAccepts(d, GOOD) && key != URL_KEY
    requires key !in DocumentOf(d.file) || DocumentOf(d.file)[key] != value
    ensures var crashed := StartStates(d, GOOD)[2];
      crashed.file.Text? && Captured(crashed.file) &&
      var edited := crashed.(file := Text(crashed.file.document[key := value]));
      !Claimed(LastOr(ReconcileStates(edited, Fine), edited))
  {
    hide CleanupStates, ReconcileStates;
    CandidateRedirects(d.file);
    FreshIsWellFormed(d.file);
    var crashed := StartStates(d, GOOD)[2];
    var document := crashed.file.document[key := value];
    assert document[key] == value;
    assert document != crashed.record.value.hashAfter;
    EditInTheGapExactly(crashed, Text(document));
  }
}
