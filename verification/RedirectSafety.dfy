/** What the config redirect keeps over every run of starts, crashes, startups, stops, restores
    and foreign edits, and exactly which write failures break it. */
module RedirectSafety {
  import opened Prelude
  import opened ConfigRedirect

  predicate Captured(file: File) { UrlOnDisk(file) == Some(CAPTURE_BASE_URL) }

  /** A record that knows the user's own URL. */
  predicate WellFormed(r: Recovery) {
    && r.applied == CAPTURE_BASE_URL
    && r.previous != Some(CAPTURE_BASE_URL)
    && Url(r.hashAfter) == Some(CAPTURE_BASE_URL)
  }

  /** The record of a start that crashed between publishing and claiming the candidate. */
  predicate Claimable(r: Recovery, file: File) {
    r.active || ((r.phase == Prepared || r.phase == CaptureStarted) && DocumentOf(file) == r.hashAfter)
  }

  /** Holds at every moment, also right after a crash. */
  predicate Owned(d: Disk) {
    && (d.record.Some? ==> WellFormed(d.record.value))
    && (Captured(d.file) ==> d.record.Some? && Claimable(d.record.value, d.file))
  }

  /** Holds whenever a reconciled process is between two operations. */
  predicate Claimed(d: Disk) {
    && (d.record.Some? ==> WellFormed(d.record.value))
    && (Captured(d.file) ==> d.record.Some? && d.record.value.active)
  }

  predicate AllOwned(states: seq<Disk>) { forall d :: d in states ==> Owned(d) }

  // ---- start ----

  /** The write failures after which a start leaves the redirect in place without an active record. */
  predicate Orphans(e: StartEnv) {
    && e.prepared == Fine && e.capture == Ready && e.started == Fine
    && (|| e.publish == KeptNew
        || (&& e.publish == Fine && e.rollback == KeptOld
            && (!e.verified || e.applied == KeptOld || (e.applied == KeptNew && e.cleanup.abort != KeptOld))))
  }

  lemma CleanupMeaning(d: Disk, e: CleanupEnv)
    requires d.record.Some?
    ensures forall s :: s in CleanupStates(d, e) ==>
      && s.file == d.file && s.record.Some?
      && (s.record == d.record || s.record.value.phase == Aborted
        || s.record.value.(detail := d.record.value.detail) == d.record.value)
    ensures forall s :: s in CleanupStates(d, e) ==>
      s.record.value.previous == d.record.value.previous && s.record.value.applied == d.record.value.applied
      && s.record.value.hashAfter == d.record.value.hashAfter && s.record.value.backup == d.record.value.backup
    ensures forall s :: s in CleanupStates(d, e) && s.record.value.active ==> s.record == d.record
    ensures var last := LastOr(CleanupStates(d, e), d);
      last in CleanupStates(d, e) && (last.record.value.active <==> d.record.value.active && e.abort == KeptOld)
  {
  }

  /** Cleaning up keeps ownership unless it gives up a redirect that is still on disk. */
  lemma CleanupKeeps(d: Disk, e: CleanupEnv)
    requires Owned(d) && d.record.Some?
    requires Captured(d.file) ==> d.record.value.active && e.abort == KeptOld
    ensures AllOwned(CleanupStates(d, e)) && Claimed(LastOr(CleanupStates(d, e), d))
  {
    CleanupMeaning(d, e);
    hide Url;
  }

  lemma FreshIsWellFormed(file: File)
    requires !Captured(file)
    ensures WellFormed(FreshRecord(file)) && WellFormed(FreshRecord(file).(phase := CaptureStarted))
    ensures Captured(Text(FreshRecord(file).hashAfter))
  {
    CandidateRedirects(file);
  }

  lemma UndoKeeps(d: Disk, original: File, e: StartEnv)
    requires d.record.Some? && WellFormed(d.record.value) && Claimable(d.record.value, d.file)
    requires !Captured(original) && Captured(d.file)
    requires e.rollback == KeptOld ==> d.record.value.active && e.cleanup.abort == KeptOld
    ensures AllOwned(UndoStates(d, original, e)) && Claimed(LastOr(UndoStates(d, original, e), d))
  {
    hide CleanupStates, Url, WellFormed;
    CleanupKeeps(PutFile(d, original, e.rollback), e.cleanup);
  }

  lemma UndoOrphans(d: Disk, original: File, e: StartEnv)
    requires d.record.Some? && Captured(d.file) && e.rollback == KeptOld
    requires !(d.record.value.active && e.cleanup.abort == KeptOld)
    ensures !Claimed(LastOr(UndoStates(d, original, e), d))
  {
    hide CleanupStates, Url, WellFormed;
    CleanupMeaning(d, e.cleanup);
  }

  /** The second half of a start, from the published candidate on. */
  lemma ApplyKeeps(d: Disk, original: File, r: Recovery, e: StartEnv)
    requires d.record == Some(r) && WellFormed(r) && r.phase == CaptureStarted && !r.active
    requires d.file == original && !Captured(original)
    requires e.prepared == Fine && e.capture == Ready && e.started == Fine
    ensures !Orphans(e) ==> AllOwned(ApplyStates(d, original, r, e))
    ensures !Orphans(e) <==> Claimed(LastOr(ApplyStates(d, original, r, e), d))
  {
    hide CleanupStates, UndoStates, Url;
    var published := PutFile(d, Text(r.hashAfter), e.publish);
    var claimed := PutRecord(published, r.(phase := IntegrationApplied, active := true), e.applied);
    if e.publish == KeptOld {
      CleanupKeeps(published, e.cleanup);
    } else if e.publish == KeptNew {
      CleanupMeaning(published, e.cleanup);
    } else if !e.verified {
      if e.rollback == KeptOld { UndoOrphans(published, original, e); } else { UndoKeeps(published, original, e); }
    } else if e.applied != Fine {
      if Orphans(e) { UndoOrphans(claimed, original, e); } else { UndoKeeps(claimed, original, e); }
    }
  }

  /** Every state a start passes through can be recovered, unless a write fails in one of the ways
      of Orphans; and those are exactly the ways it can leave the redirect unclaimed. */
  lemma StartKeepsOwnership(d: Disk, e: StartEnv)
    requires Claimed(d) && StartAccepts(d, e)
    ensures !Orphans(e) ==> AllOwned(StartStates(d, e))
    ensures !Orphans(e) <==> Claimed(LastOr(StartStates(d, e), d))
  {
    hide CleanupStates, ApplyStates, Url, WellFormed;
    FreshIsWellFormed(d.file);
    var r := FreshRecord(d.file);
    var prepared := PutRecord(d, r, e.prepared);
    var started := PutRecord(prepared, r.(phase := CaptureStarted), e.started);
    assert Owned(prepared) && Owned(started);
    if e.prepared == Fine && e.capture == Failed {
      CleanupKeeps(prepared, e.cleanup);
    } else if e.prepared == Fine && e.capture == Ready {
      if e.started != Fine {
        CleanupKeeps(started, e.cleanup);
      } else {
        ApplyKeeps(started, d.file, r.(phase := CaptureStarted), e);
      }
    }
  }

  /** A start that follows another start records the capture URL as the user's own exactly when
      the first one failed in one of those ways. */
  lemma NextStartRecordsCapture(d: Disk, first: StartEnv, second: StartEnv)
    requires Claimed(d) && StartAccepts(d, first)
    requires StartAccepts(LastOr(StartStates(d, first), d), second) && second.prepared != KeptOld
    ensures StartStates(LastOr(StartStates(d, first), d), second)[0].record.value.previous == Some(CAPTURE_BASE_URL)
      <==> Orphans(first)
  {
    hide CleanupStates, ApplyStates, Url;
    StartKeepsOwnership(d, first);
    var between := LastOr(StartStates(d, first), d);
    StartRecordsUrl(between, second);
    if Orphans(first) { StartKeepsWellFormed(d, first); }
  }

  lemma StartRecordsUrl(d: Disk, e: StartEnv)
    requires StartAccepts(d, e) && e.prepared != KeptOld
    ensures StartStates(d, e) != [] && StartStates(d, e)[0].record.Some?
    ensures StartStates(d, e)[0].record.value.previous == UrlOnDisk(d.file)
  {
    hide CleanupStates, ApplyStates, Url;
  }

  lemma StartKeepsWellFormed(d: Disk, e: StartEnv)
    requires Claimed(d) && StartAccepts(d, e)
    ensures var last := LastOr(StartStates(d, e), d); last.record.Some? ==> WellFormed(last.record.value)
  {
    hide CleanupStates, ApplyStates, Url, WellFormed;
    FreshIsWellFormed(d.file);
    var r := FreshRecord(d.file);
    var prepared := PutRecord(d, r, e.prepared);
    var started := PutRecord(prepared, r.(phase := CaptureStarted), e.started);
    if e.prepared == Fine && e.capture == Failed {
      CleanupKeepsWellFormed(prepared, e.cleanup);
    } else if e.prepared == Fine && e.capture == Ready {
      if e.started != Fine {
        CleanupKeepsWellFormed(started, e.cleanup);
      } else {
        ApplyKeepsWellFormed(started, d.file, r.(phase := CaptureStarted), e);
      }
    }
  }

  lemma CleanupKeepsWellFormed(d: Disk, e: CleanupEnv)
    requires d.record.Some? && WellFormed(d.record.value)
    ensures forall s :: s in CleanupStates(d, e) ==> s.record.Some? && WellFormed(s.record.value)
  {
    CleanupMeaning(d, e);
    hide CleanupStates, Url;
  }

  lemma ApplyKeepsWellFormed(d: Disk, original: File, r: Recovery, e: StartEnv)
    requires d.record == Some(r) && WellFormed(r)
    ensures var last := LastOr(ApplyStates(d, original, r, e), d); last.record.Some? && WellFormed(last.record.value)
  {
    hide CleanupStates, Url;
    var published := PutFile(d, Text(r.hashAfter), e.publish);
    var claimed := PutRecord(published, r.(phase := IntegrationApplied, active := true), e.applied);
    CleanupKeepsWellFormed(published, e.cleanup);
    CleanupKeepsWellFormed(PutFile(published, original, e.rollback), e.cleanup);
    CleanupKeepsWellFormed(PutFile(claimed, original, e.rollback), e.cleanup);
  }

  // ---- the other operations ----

  /** A startup claims every redirect it finds, unless the write that claims it is lost. */
  lemma StartupClaims(d: Disk, write: Fault)
    requires Owned(d)
    ensures AllOwned(ReconcileStates(d, write))
    ensures Claimed(LastOr(ReconcileStates(d, write), d))
      <==> !(write == KeptOld && Captured(d.file) && !d.record.value.active)
    ensures forall s :: s in ReconcileStates(d, write) ==> s.file == d.file
  {
  }

  lemma RestoreKeeps(d: Disk, confirm: bool, e: RestoreEnv)
    requires Claimed(d) && d.record.Some?
    ensures AllOwned(RestoreStates(d, d.record.value, confirm, e))
    ensures Claimed(LastOr(RestoreStates(d, d.record.value, confirm, e), d))
  {
    hide Url;
    var r := d.record.value;
    PreviousUrl(DocumentOf(d.file), r.previous);
  }

  lemma PreviousUrl(document: Document, previous: Option<string>)
    ensures Url(WithPrevious(document, previous)) == previous
    ensures forall k :: k != URL_KEY ==>
      && (k in WithPrevious(document, previous) <==> k in document)
      && (k in document ==> WithPrevious(document, previous)[k] == document[k])
  {
  }

  lemma RestartKeeps(d: Disk, e: RestartEnv)
    requires Claimed(d)
    ensures AllOwned(RestartStates(d, e)) && Claimed(LastOr(RestartStates(d, e), d))
    ensures forall s :: s in RestartStates(d, e) ==> s.file == d.file
  {
    hide Url;
  }

  // ---- runs ----

  datatype Event =
    | Startup(write: Fault)
    | Start(start: StartEnv)
    | Stop(restore: RestoreEnv)
    | Restore(confirm: bool, restore: RestoreEnv)
    | Restart(restart: RestartEnv)
    | Edit(file: File)

  /** An event runs to its end, or the machine stops right after the given number of writes. */
  datatype Step = Step(event: Event, crash: Option<nat>)

  /** `up`: the desktop process runs and has reconciled. */
  datatype Machine = Machine(disk: Disk, up: bool)

  function Writes(d: Disk, event: Event): seq<Disk> {
    match event
    case Startup(write) => ReconcileStates(d, write)
    case Start(e) => StartStates(d, e)
    case Stop(e) => StopStates(d, e)
    case Restore(confirm, e) => RestoreConfigStates(d, confirm, e)
    case Restart(e) => RestartStates(d, e)
    case Edit(file) => [d.(file := file)]
  }

  /** Startup runs before anything else; writes that would orphan a redirect do not fail; and whoever
      else edits the config leaves a redirect in it only if the record claims it or, while the process
      is down, can still claim it. */
  predicate Allowed(m: Machine, event: Event) {
    match event
    case Startup(write) =>
      !m.up && !(write == KeptOld && Captured(m.disk.file) && m.disk.record.Some? && !m.disk.record.value.active)
    case Start(e) => m.up && !Orphans(e)
    case Edit(file) =>
      || !Captured(file)
      || (m.disk.record.Some? &&
          (m.disk.record.value.active || (!m.up && Claimable(m.disk.record.value, file))))
    case _ => m.up
  }

  predicate Crashes(m: Machine, step: Step) {
    step.crash.Some? && step.crash.value <= |Writes(m.disk, step.event)|
  }

  function Play(m: Machine, step: Step): Machine {
    var writes := Writes(m.disk, step.event);
    if Crashes(m, step) then Machine(LastOr(writes[..step.crash.value], m.disk), false)
    else Machine(LastOr(writes, m.disk), m.up || step.event.Startup?)
  }

  predicate Possible(m: Machine, steps: seq<Step>)
    decreases |steps|
  {
    steps == [] || (Allowed(m, steps[0].event) && Possible(Play(m, steps[0]), steps[1..]))
  }

  function PlayAll(m: Machine, steps: seq<Step>): Machine
    decreases |steps|
  {
    if steps == [] then m else PlayAll(Play(m, steps[0]), steps[1..])
  }

  predicate Sound(m: Machine) { Owned(m.disk) && (m.up ==> Claimed(m.disk)) }

  lemma EventKeeps(m: Machine, event: Event)
    requires Sound(m) && Allowed(m, event)
    ensures AllOwned(Writes(m.disk, event))
    ensures m.up || event.Startup? ==> Claimed(LastOr(Writes(m.disk, event), m.disk))
  {
    hide ReconcileStates, StartStates, RestoreStates, RestartStates, Url, WellFormed;
    match event
    case Startup(write) => StartupClaims(m.disk, write);
    case Start(e) =>
      if StartAccepts(m.disk, e) { StartKeepsOwnership(m.disk, e); } else { RejectedStart(m.disk, e); }
    case Stop(e) => if m.disk.record.Some? { RestoreKeeps(m.disk, false, e); }
    case Restore(confirm, e) => if m.disk.record.Some? { RestoreKeeps(m.disk, confirm, e); }
    case Restart(e) => RestartKeeps(m.disk, e);
    case Edit(file) =>
  }

  lemma RejectedStart(d: Disk, e: StartEnv)
    requires !StartAccepts(d, e)
    ensures StartStates(d, e) == []
  {
  }

  lemma StepKeeps(m: Machine, step: Step)
    requires Sound(m) && Allowed(m, step.event)
    ensures Sound(Play(m, step))
  {
    hide Writes, Owned, Claimed, Allowed;
    EventKeeps(m, step.event);
    var writes := Writes(m.disk, step.event);
    ClaimedIsOwned(LastOr(writes, m.disk));
    LastOwned(writes, m.disk);
    if Crashes(m, step) {
      var n := step.crash.value;
      assert forall d :: d in writes[..n] ==> d in writes;
      LastOwned(writes[..n], m.disk);
    }
  }

  /** A foreign edit keeps the redirect recoverable exactly when it is allowed. */
  lemma EditKeepsExactly(m: Machine, file: File)
    requires Sound(m)
    ensures Sound(Play(m, Step(Edit(file), None))) <==> Allowed(m, Edit(file))
  {
    hide Url;
  }

  lemma ClaimedIsOwned(d: Disk)
    ensures Claimed(d) ==> Owned(d)
  {
  }

  lemma LastOwned(states: seq<Disk>, d: Disk)
    requires AllOwned(states) && Owned(d)
    ensures Owned(LastOr(states, d))
  {
    hide Owned;
  }

  lemma {:induction false} RunsAreSound(m: Machine, steps: seq<Step>)
    requires Sound(m) && Possible(m, steps)
    ensures Sound(PlayAll(m, steps))
    decreases |steps|
  {
    hide Sound, Allowed, Play;
    if steps != [] {
      StepKeeps(m, steps[0]);
      RunsAreSound(Play(m, steps[0]), steps[1..]);
    }
  }

  /** Over every run from a config that is not redirected, with a crash possible after any write:
      a redirect on disk always has a record that knows the user's own URL and either claims the
      redirect or is recognised by the next startup; and a start that is accepted never finds the
      capture URL, so it never records it as the original. */
  lemma {:induction false} RedirectIsAlwaysRecoverable(file: File, steps: seq<Step>, e: StartEnv)
    requires !Captured(file)
    requires Possible(Machine(Disk(file, None), false), steps)
    ensures var m := PlayAll(Machine(Disk(file, None), false), steps);
      && (Captured(m.disk.file) ==>
        && m.disk.record.Some? && m.disk.record.value.previous != Some(CAPTURE_BASE_URL)
        && Classify(m.disk.record.value, DocumentOf(m.disk.file)).active)
      && (m.up && Captured(m.disk.file) ==> m.disk.record.value.active)
      && (m.up && StartAccepts(m.disk, e) ==> FreshRecord(m.disk.file).previous != Some(CAPTURE_BASE_URL))
  {
    hide PlayAll, Possible, Url;
    RunsAreSound(Machine(Disk(file, None), false), steps);
  }
}
