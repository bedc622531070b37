/** Redirecting the Codex config to the Capture proxy and back, write by write
    (desktop/src-tauri/src/traffic_analysis.rs). Every operation is given by the disk states it
    passes through, so that a crash can be placed between any two writes. */
module ConfigRedirect {
  import opened Prelude

  const CAPTURE_BASE_URL: string := "http://127.0.0.1:38441"
  const URL_KEY: string := "openai_base_url"

  /** The keys and values of the Codex config. Rendering is canonical here and SHA-256
      (section 6.2 of FIPS 180-4) is treated as injective, so a hash is the document itself;
      an absent file hashes like an empty one. */
  type Document = map<string, string>
  type Hash = Document

  /** Broken: unreadable, not TOML, or with a base URL that is not a string. */
  datatype File = Absent | Broken | Text(document: Document)

  function DocumentOf(file: File): Document {
    if file.Text? then file.document else map[]
  }

  function Url(document: Document): Option<string> {
    if URL_KEY in document then Some(document[URL_KEY]) else None
  }

  function UrlOnDisk(file: File): Option<string> { Url(DocumentOf(file)) }

  datatype Phase =
    | Prepared | CaptureStarted | IntegrationApplied | Aborted
    | ReconciliationRequired | ReconciledRestored | ReconciliationConflict | Inactive
    | RestartPrepared | RestartFailed | CaptureRestarted

  datatype Status =
    | Unreconciled | PendingRestore | AlreadyRestored | ConfigConflict | NotActive | ConfigUnreadable | Restarted

  /** The human-readable detail: absent, the one of a reconciliation decision, or any other. */
  datatype Detail = NoDetail | Decided(status: Status) | Note

  datatype Recovery = Recovery(
    active: bool, phase: Phase, previous: Option<string>, applied: string, hashAfter: Hash,
    backup: bool, status: Status, detail: Detail, restartAttempted: bool)

  datatype Disk = Disk(file: File, record: Option<Recovery>)

  /** How an atomic publication ends: done, failed with the old bytes in place, or failed after
      the rename (the directory could not be synced) with the new bytes in place. */
  datatype Fault = Fine | KeptOld | KeptNew

  function PutFile(d: Disk, file: File, fault: Fault): Disk {
    if fault == KeptOld then d else d.(file := file)
  }

  function PutRecord(d: Disk, record: Recovery, fault: Fault): Disk {
    if fault == KeptOld then d else d.(record := Some(record))
  }

  // ---- rendering ----

  function WithUrl(document: Document, url: string): Document { document[URL_KEY := url] }

  function WithPrevious(document: Document, previous: Option<string>): Document {
    if previous.Some? then WithUrl(document, previous.value) else document - {URL_KEY}
  }

  lemma CandidateRedirects(original: File)
    ensures UrlOnDisk(Text(WithUrl(DocumentOf(original), CAPTURE_BASE_URL))) == Some(CAPTURE_BASE_URL)
  {
  }

  // ---- reconcile_startup ----

  datatype Decision = Decision(status: Status, phase: Phase, active: bool)

  function Classify(r: Recovery, document: Document): Decision {
    var matchesApplied := document == r.hashAfter && Url(document) == Some(r.applied);
    if matchesApplied && (r.active || r.phase == Prepared || r.phase == CaptureStarted) then
      Decision(PendingRestore, ReconciliationRequired, true)
    else if r.active && Url(document) == r.previous then
      Decision(AlreadyRestored, ReconciledRestored, false)
    else if r.active then
      Decision(ConfigConflict, ReconciliationConflict, true)
    else
      Decision(NotActive, Inactive, false)
  }

  function Reconciled(r: Recovery, c: Decision): Recovery {
    r.(status := c.status, phase := c.phase, active := c.active, detail := Decided(c.status))
  }

  /** The four verdicts, what they make of the record, and that they touch no more of it. */
  lemma VerdictExactly(r: Recovery, document: Document)
    ensures var n := Reconciled(r, Classify(r, document));
      var pending := document == r.hashAfter && Url(document) == Some(r.applied) &&
                     (r.active || r.phase in {Prepared, CaptureStarted});
      && (n.status == PendingRestore <==> pending)
      && (n.status == AlreadyRestored <==> !pending && r.active && Url(document) == r.previous)
      && (n.status == ConfigConflict <==> !pending && r.active && Url(document) != r.previous)
      && (n.status == NotActive <==> !pending && !r.active)
      && n == r.(status := n.status, detail := Decided(n.status),
                 active := n.status in {PendingRestore, ConfigConflict},
                 phase := if pending then ReconciliationRequired
                          else if n.status == AlreadyRestored then ReconciledRestored
                          else if n.status == ConfigConflict then ReconciliationConflict
                          else Inactive)
  {
    hide Url;
  }

  function Unreadable(r: Recovery): Recovery {
    r.(status := ConfigUnreadable, phase := ReconciliationConflict, detail := Decided(ConfigUnreadable))
  }

  /** The record says already what the startup would find. */
  predicate AlreadyRecorded(d: Disk) {
    d.record.Some? && d.file != Broken &&
    d.record.value == Reconciled(d.record.value, Classify(d.record.value, DocumentOf(d.file)))
  }

  function ReconcileStates(d: Disk, write: Fault): seq<Disk> {
    if d.record == None then []
    else if d.file == Broken then [PutRecord(d, Unreadable(d.record.value), write)]
    else
      var next := Reconciled(d.record.value, Classify(d.record.value, DocumentOf(d.file)));
      if next == d.record.value then [] else [PutRecord(d, next, write)]
  }

  // ---- start ----

  /** How far Capture gets: ready, a failure that is cleaned up, or one that returns at once. */
  datatype CaptureOutcome = Ready | Failed | GaveUp

  /** Outcomes that are not under the operation's control. `note` is the write that ending the
      relay makes during a cleanup, if it gets that far. */
  datatype CleanupEnv = CleanupEnv(note: Option<Fault>, abort: Fault)
  datatype StartEnv = StartEnv(
    backup: bool, log: bool, prepared: Fault, capture: CaptureOutcome, started: Fault,
    publish: Fault, verified: bool, rollback: Fault, applied: Fault, cleanup: CleanupEnv)

  function CleanupStates(d: Disk, e: CleanupEnv): seq<Disk> {
    if d.record == None then []
    else
      var r := d.record.value;
      var noted := if e.note.Some? && !r.active then [PutRecord(d, r.(detail := Note), e.note.value)] else [];
      var before := LastOr(noted, d);
      noted + [PutRecord(before, before.record.value.(active := false, phase := Aborted), e.abort)]
  }

  function FreshRecord(file: File): Recovery {
    Recovery(false, Prepared, UrlOnDisk(file), CAPTURE_BASE_URL, WithUrl(DocumentOf(file), CAPTURE_BASE_URL),
             file.Text?, Unreconciled, NoDetail, false)
  }

  predicate StartAccepts(d: Disk, e: StartEnv) {
    !(d.record.Some? && d.record.value.active) && d.file != Broken && e.backup && e.log
  }

  /** Putting the original file back after a failed start, then the cleanup. */
  function UndoStates(d: Disk, original: File, e: StartEnv): seq<Disk> {
    var undone := PutFile(d, original, e.rollback);
    [undone] + CleanupStates(undone, e.cleanup)
  }

  /** Publishing the candidate, verifying it, and claiming it in the record. */
  function ApplyStates(d: Disk, original: File, r: Recovery, e: StartEnv): seq<Disk> {
    var published := PutFile(d, Text(r.hashAfter), e.publish);
    if e.publish != Fine then [published] + CleanupStates(published, e.cleanup)
    else if !e.verified then [published] + UndoStates(published, original, e)
    else
      var claimed := PutRecord(published, r.(phase := IntegrationApplied, active := true), e.applied);
      if e.applied == Fine then [published, claimed] else [published, claimed] + UndoStates(claimed, original, e)
  }

  function StartStates(d: Disk, e: StartEnv): seq<Disk> {
    if !StartAccepts(d, e) then []
    else
      var r := FreshRecord(d.file);
      var prepared := PutRecord(d, r, e.prepared);
      if e.prepared != Fine || e.capture == GaveUp then [prepared]
      else if e.capture == Failed then [prepared] + CleanupStates(prepared, e.cleanup)
      else
        var started := PutRecord(prepared, r.(phase := CaptureStarted), e.started);
        if e.started != Fine then [prepared, started] + CleanupStates(started, e.cleanup)
        else [prepared, started] + ApplyStates(started, d.file, r.(phase := CaptureStarted), e)
  }

  // ---- stop, restore_config and restart_capture ----

  datatype RestoreEnv = RestoreEnv(paused: bool, publish: Fault, verified: bool, inactive: Fault)

  /** restoration_requires_publish: None is a conflict. */
  function RequiresPublish(current: Option<string>, applied: Option<string>, previous: Option<string>,
                           externalChange: bool, confirm: bool): Option<bool>
  {
    if current != applied && current != previous && externalChange && !confirm then None
    else Some(current != previous)
  }

  /** Who may put the previous URL back: anyone who confirms, and otherwise only over the applied URL or
      the previous one, or a document that is as it was written. */
  predicate MayRestore(r: Recovery, file: File, confirm: bool) {
    || confirm || UrlOnDisk(file) == Some(r.applied) || UrlOnDisk(file) == r.previous
    || DocumentOf(file) == r.hashAfter
  }

  function RestoredFile(r: Recovery, document: Document): File {
    var candidate := WithPrevious(document, r.previous);
    if r.previous == None && !r.backup && candidate == map[] then Absent else Text(candidate)
  }

  /** restore_active_config. */
  function RestoreStates(d: Disk, r: Recovery, confirm: bool, e: RestoreEnv): seq<Disk> {
    if d.file == Broken then []
    else
      var document := DocumentOf(d.file);
      var publish := RequiresPublish(Url(document), Some(r.applied), r.previous, document != r.hashAfter, confirm);
      if publish == None then []
      else
        var published := if publish.value then [PutFile(d, RestoredFile(r, document), e.publish)] else [];
        if (publish.value && e.publish != Fine) || !e.verified then published
        else published + [PutRecord(LastOr(published, d), r.(active := false), e.inactive)]
  }

  function StopStates(d: Disk, e: RestoreEnv): seq<Disk> {
    if d.record == None || !d.record.value.active || !e.paused then []
    else RestoreStates(d, d.record.value, false, e)
  }

  function RestoreConfigStates(d: Disk, confirm: bool, e: RestoreEnv): seq<Disk> {
    if d.record == None || !e.paused then [] else RestoreStates(d, d.record.value, confirm, e)
  }

  /** How a Capture restart ends after its first write: it gives up, the gateway does not start
      (written as such), or Capture is capturing again (written as such). */
  datatype RestartOutcome = RestartGaveUp | NoGateway | Capturing
  datatype RestartEnv = RestartEnv(prepared: Fault, outcome: RestartOutcome, final: Fault)

  predicate RestartAccepts(d: Disk) {
    && d.record.Some? && d.record.value.active && !d.record.value.restartAttempted
    && d.record.value.status != ConfigConflict && d.file != Broken
    && DocumentOf(d.file) == d.record.value.hashAfter && UrlOnDisk(d.file) == Some(d.record.value.applied)
  }

  function RestartStates(d: Disk, e: RestartEnv): seq<Disk> {
    if !RestartAccepts(d) then []
    else
      var r := d.record.value.(restartAttempted := true, phase := RestartPrepared, detail := Note);
      var d1 := PutRecord(d, r, e.prepared);
      if e.prepared != Fine || e.outcome == RestartGaveUp then [d1]
      else if e.outcome == NoGateway then [d1, PutRecord(d1, r.(phase := RestartFailed), e.final)]
      else [d1, PutRecord(d1, r.(phase := CaptureRestarted, status := Restarted), e.final)]
  }

  // ---- the operations themselves ----

  /** The files the operations work on, with every state the disk has been in. */
  class Desktop {
    var file: File
    var record: Option<Recovery>
    ghost var history: seq<Disk>

    constructor (file: File)
      ensures this.file == file && record == None && history == []
    {
      this.file, record, history := file, None, [];
    }

    ghost function Now(): Disk
      reads this
    {
      Disk(file, record)
    }

    method PublishFile(next: File, fault: Fault) returns (ok: bool)
      modifies this
      ensures ok == (fault == Fine) && Now() == PutFile(old(Now()), next, fault)
      ensures record == old(record) && (file == old(file) || file == next) && (ok ==> file == next)
      ensures history == old(history) + [Now()]
    {
      if fault != KeptOld {
        file := next;
      }
      history := history + [Now()];
      ok := fault == Fine;
    }

    method WriteRecord(next: Recovery, fault: Fault) returns (ok: bool)
      modifies this
      ensures ok == (fault == Fine) && Now() == PutRecord(old(Now()), next, fault)
      ensures history == old(history) + [Now()]
    {
      if fault != KeptOld {
        record := Some(next);
      }
      history := history + [Now()];
      ok := fault == Fine;
    }

    method ReconcileStartup(write: Fault)
      modifies this
      ensures history == old(history) + ReconcileStates(old(Now()), write)
      ensures Now() == LastOr(ReconcileStates(old(Now()), write), old(Now()))
      ensures file == old(file) && (history == old(history) || history == old(history) + [Now()])
      ensures old(record) == None || AlreadyRecorded(old(Now())) ==> history == old(history) && Now() == old(Now())
      ensures old(record).Some? && write != KeptOld && old(file) == Broken ==>
        record == Some(old(record).value.(status := ConfigUnreadable, phase := ReconciliationConflict,
                                          detail := Decided(ConfigUnreadable)))
      ensures old(record).Some? && write != KeptOld && old(file) != Broken ==>
        record == Some(Reconciled(old(record).value, Classify(old(record).value, DocumentOf(old(file)))))
    {
      if record == None {
        return;
      }
      var r := record.value;
      if file == Broken {
        var _ := WriteRecord(Unreadable(r), write);
        return;
      }
      var decision := Classify(r, DocumentOf(file));
      if r.status == decision.status && r.phase == decision.phase && r.active == decision.active
         && r.detail == Decided(decision.status) {
        assert r == Reconciled(r, decision);
        return;
      }
      r := r.(status := decision.status, phase := decision.phase, active := decision.active);
      r := r.(detail := Decided(decision.status));
      var _ := WriteRecord(r, write);
    }

    /** cleanup_start_failure: end the relay, then mark the record aborted. */
    method CleanUp(e: CleanupEnv)
      modifies this
      ensures history == old(history) + CleanupStates(old(Now()), e)
      ensures Now() == LastOr(CleanupStates(old(Now()), e), old(Now()))
      ensures file == old(file) && (old(record) == None ==> record == None)
      ensures old(record).Some? && e.abort != KeptOld ==>
        var noted := e.note.Some? && e.note.value != KeptOld && !old(record).value.active;
        record == Some(old(record).value.(active := false, phase := Aborted,
                                          detail := if noted then Note else old(record).value.detail))
    {
      if record == None {
        return;
      }
      if e.note.Some? && !record.value.active {
        var _ := WriteRecord(record.value.(detail := Note), e.note.value);
      }
      var _ := WriteRecord(record.value.(active := false, phase := Aborted), e.abort);
    }

    method Undo(original: File, e: StartEnv)
      modifies this
      ensures history == old(history) + UndoStates(old(Now()), original, e)
      ensures Now() == LastOr(UndoStates(old(Now()), original, e), old(Now()))
      ensures file == if e.rollback == KeptOld then old(file) else original
      ensures old(record).Some? && e.cleanup.abort != KeptOld ==>
        record.Some? && record.value.phase == Aborted && !record.value.active
    {
      hide CleanupStates;
      var _ := PublishFile(original, e.rollback);
      CleanUp(e.cleanup);
    }

    method Apply(original: File, r: Recovery, e: StartEnv) returns (ok: bool)
      modifies this
      ensures history == old(history) + ApplyStates(old(Now()), original, r, e)
      ensures Now() == LastOr(ApplyStates(old(Now()), original, r, e), old(Now()))
      ensures ok ==> file == Text(r.hashAfter) && record == Some(r.(phase := IntegrationApplied, active := true))
      ensures ok <==> e.publish == Fine && e.verified && e.applied == Fine
      ensures !ok && old(record).Some? && e.cleanup.abort != KeptOld ==>
        record.Some? && record.value.phase == Aborted && !record.value.active
    {
      hide CleanupStates, UndoStates;
      ok := false;
      var published := PublishFile(Text(r.hashAfter), e.publish);
      if !published {
        CleanUp(e.cleanup);
        return;
      }
      if !e.verified {
        Undo(original, e);
        return;
      }
      var claimed := WriteRecord(r.(active := true, phase := IntegrationApplied), e.applied);
      if !claimed {
        Undo(original, e);
        return;
      }
      ok := true;
    }

    method Start(e: StartEnv) returns (ok: bool)
      modifies this
      ensures history == old(history) + StartStates(old(Now()), e)
      ensures Now() == LastOr(StartStates(old(Now()), e), old(Now()))
      ensures var accepted :=
          !(old(record).Some? && old(record).value.active) && old(file) != Broken && e.backup && e.log;
        && (ok <==> && accepted && e.prepared == Fine && e.capture == Ready && e.started == Fine
                    && e.publish == Fine && e.verified && e.applied == Fine)
        && (!accepted ==> history == old(history))
        && (!accepted || e.prepared == KeptOld ==> Now() == old(Now()))
        && (accepted && !ok && e.prepared == Fine && e.capture != GaveUp && e.cleanup.abort != KeptOld ==>
              record.Some? && record.value.phase == Aborted && !record.value.active)
      ensures ok ==>
        var redirected := DocumentOf(old(file))[URL_KEY := CAPTURE_BASE_URL];
        && file == Text(redirected)
        && record == Some(Recovery(true, IntegrationApplied, UrlOnDisk(old(file)), CAPTURE_BASE_URL, redirected,
                                   old(file).Text?, Unreconciled, NoDetail, false))
    {
      hide CleanupStates, ApplyStates, Url;
      ok := false;
      if record.Some? && record.value.active {
        return;
      }
      if file == Broken || !e.backup || !e.log {
        return;
      }
      var original := file;
      var candidate := WithUrl(DocumentOf(original), CAPTURE_BASE_URL);
      var r := Recovery(false, Prepared, UrlOnDisk(original), CAPTURE_BASE_URL, candidate,
                        original.Text?, Unreconciled, NoDetail, false);
      var prepared := WriteRecord(r, e.prepared);
      if !prepared || e.capture == GaveUp {
        return;
      }
      if e.capture == Failed {
        CleanUp(e.cleanup);
        return;
      }
      r := r.(phase := CaptureStarted);
      var started := WriteRecord(r, e.started);
      if !started {
        CleanUp(e.cleanup);
        return;
      }
      ok := Apply(original, r, e);
      CandidateRedirects(original);
    }

    method RestoreActive(r: Recovery, confirm: bool, e: RestoreEnv) returns (ok: bool)
      modifies this
      ensures history == old(history) + RestoreStates(old(Now()), r, confirm, e)
      ensures Now() == LastOr(RestoreStates(old(Now()), r, confirm, e), old(Now()))
      ensures ok ==> UrlOnDisk(file) == r.previous && record == Some(r.(active := false))
      ensures ok <==> && old(file) != Broken && MayRestore(r, old(file), confirm) && e.verified && e.inactive == Fine
                      && (UrlOnDisk(old(file)) != r.previous ==> e.publish == Fine)
      ensures old(file) == Broken || !MayRestore(r, old(file), confirm) ==>
        history == old(history) && Now() == old(Now())
      ensures UrlOnDisk(old(file)) == r.previous ==> file == old(file)
    {
      ok := false;
      if file == Broken {
        return;
      }
      var document := DocumentOf(file);
      var publish := RequiresPublish(Url(document), Some(r.applied), r.previous, document != r.hashAfter, confirm);
      if publish == None {
        return;
      }
      if publish.value {
        var published := PublishFile(RestoredFile(r, document), e.publish);
        if !published {
          return;
        }
      }
      if !e.verified {
        return;
      }
      ok := WriteRecord(r.(active := false), e.inactive);
    }

    method Stop(e: RestoreEnv) returns (ok: bool)
      modifies this
      ensures history == old(history) + StopStates(old(Now()), e)
      ensures Now() == LastOr(StopStates(old(Now()), e), old(Now()))
      ensures old(record) == None || !old(record).value.active || !e.paused ==>
        history == old(history) && Now() == old(Now())
      ensures ok ==> old(record).Some? && record == Some(old(record).value.(active := false))
      ensures ok <==> old(record).Some? && (old(record).value.active ==>
        && e.paused && old(file) != Broken && MayRestore(old(record).value, old(file), false)
        && e.verified && e.inactive == Fine
        && (UrlOnDisk(old(file)) != old(record).value.previous ==> e.publish == Fine))
      ensures ok && old(record).value.active ==> UrlOnDisk(file) == old(record).value.previous
    {
      if record == None {
        return false;
      }
      if !record.value.active {
        return true;
      }
      if !e.paused {
        return false;
      }
      ok := RestoreActive(record.value, false, e);
    }

    method RestoreConfig(confirm: bool, e: RestoreEnv) returns (ok: bool)
      modifies this
      ensures history == old(history) + RestoreConfigStates(old(Now()), confirm, e)
      ensures Now() == LastOr(RestoreConfigStates(old(Now()), confirm, e), old(Now()))
      ensures old(record) == None || !e.paused ==> !ok && history == old(history) && Now() == old(Now())
      ensures ok ==> UrlOnDisk(file) == old(record).value.previous
      ensures ok <==> && e.paused && old(record).Some? && old(file) != Broken
                      && MayRestore(old(record).value, old(file), confirm) && e.verified && e.inactive == Fine
                      && (UrlOnDisk(old(file)) != old(record).value.previous ==> e.publish == Fine)
      ensures ok ==> record == Some(old(record).value.(active := false))
    {
      if record == None || !e.paused {
        return false;
      }
      ok := RestoreActive(record.value, confirm, e);
    }

    method RestartCapture(e: RestartEnv) returns (ok: bool)
      modifies this
      ensures history == old(history) + RestartStates(old(Now()), e)
      ensures Now() == LastOr(RestartStates(old(Now()), e), old(Now()))
      ensures file == old(file)
      ensures var accepted :=
          && old(record).Some? && old(record).value.active && !old(record).value.restartAttempted
          && old(record).value.status != ConfigConflict && old(file) != Broken
          && DocumentOf(old(file)) == old(record).value.hashAfter
          && UrlOnDisk(old(file)) == Some(old(record).value.applied);
        var begun := accepted && e.prepared != KeptOld;
        var ended := accepted && e.prepared == Fine && e.outcome != RestartGaveUp && e.final != KeptOld;
        && (ok <==> accepted && e.prepared == Fine && e.outcome == Capturing && e.final == Fine)
        && (!accepted ==> history == old(history))
        && record == if !begun then old(record) else Some(old(record).value.(
             restartAttempted := true, detail := Note,
             phase := if !ended then RestartPrepared else if e.outcome == NoGateway then RestartFailed
                      else CaptureRestarted,
             status := if ended && e.outcome == Capturing then Restarted else old(record).value.status))
    {
      if record == None || !record.value.active || record.value.restartAttempted
        || record.value.status == ConfigConflict {
        return false;
      }
      if file == Broken || DocumentOf(file) != record.value.hashAfter || UrlOnDisk(file) != Some(record.value.applied) {
        return false;
      }
      var r := record.value.(restartAttempted := true, phase := RestartPrepared, detail := Note);
      var written := WriteRecord(r, e.prepared);
      if !written || e.outcome == RestartGaveUp {
        return false;
      }
      if e.outcome == NoGateway {
        var _ := WriteRecord(r.(phase := RestartFailed), e.final);
        return false;
      }
      ok := WriteRecord(r.(phase := CaptureRestarted, status := Restarted), e.final);
    }
  }
}
