/** The autosaved observation log: sequence and gap accounting under write and sync failures
    (desktop-app/traffic_autosave.go). */
module ObservationLog {
  import opened Prelude

  /** What the file holds: a row per observation, named by its sequence; a row cut short; a footer. */
  datatype Line = Row(sequence: nat) | Torn | Footer(observations: nat, gaps: nat, dropped: nat)

  /** How writing rows ends: all of them are there, or an error after some of them, perhaps in the
      middle of one; or all are there but the sync fails. */
  datatype Fault = Fine | WriteFails(count: nat, torn: bool) | SyncFails

  datatype Log = Log(
    open: bool, after: nat, written: nat, gaps: nat, dropped: nat, failed: bool, file: seq<Line>)

  /** Just created: the header alone. */
  predicate New(l: Log) {
    l.open && l.after == 0 && l.written == 0 && l.gaps == 0 && l.dropped == 0 && !l.failed && l.file == []
  }

  // ---- one batch ----

  function Fresh(items: seq<nat>, after: nat): seq<nat> {
    if items == [] then []
    else
      var before := Fresh(items[..|items| - 1], after);
      if items[|items| - 1] <= after then before else before + [items[|items| - 1]]
  }

  /** Each row adds the distance to the one before, when it is more than one. */
  function GapsOf(rows: seq<nat>, after: nat): nat {
    if rows == [] then 0
    else
      var next := LastOr(rows[..|rows| - 1], after);
      var last := rows[|rows| - 1];
      GapsOf(rows[..|rows| - 1], after) + if last > next + 1 then last - next - 1 else 0
  }

  function Rows(rows: seq<nat>): (lines: seq<Line>)
    ensures |lines| == |rows| && forall k :: 0 <= k < |rows| ==> lines[k] == Row(rows[k])
  {
    seq(|rows|, k requires 0 <= k < |rows| => Row(rows[k]))
  }

  function Landed(lines: seq<Line>, fault: Fault): seq<Line> {
    match fault
    case WriteFails(n, torn) => (if n <= |lines| then lines[..n] else lines) + if torn then [Torn] else []
    case _ => lines
  }

  /** appendLocked. The gaps are counted before the write and stay counted when it fails. */
  function Appended(l: Log, items: seq<nat>, dropped: nat, fault: Fault): Log {
    var rows := Fresh(items, l.after);
    if rows == [] then l
    else
      var counted := l.(gaps := l.gaps + GapsOf(rows, l.after), file := l.file + Landed(Rows(rows), fault));
      if fault == Fine
      then counted.(after := LastOr(rows, l.after), written := l.written + |rows|, dropped := dropped)
      else counted.(failed := true)
  }

  // ---- the operations ----

  /** How writing the footer ends; its error is ignored. */
  datatype FooterFault = Whole | Cut | Missing

  datatype Event =
    | Flush(items: seq<nat>, dropped: nat, fault: Fault)
    | Copy(items: seq<nat>, dropped: nat, fault: Fault, syncs: bool)
    | Close(finalize: bool, items: seq<nat>, dropped: nat, fault: Fault, footer: FooterFault)

  function Finished(l: Log, finalize: bool, footer: FooterFault): Log {
    var line := Footer(l.written, l.gaps, l.dropped);
    if l.failed || !finalize || footer == Missing then l.(open := false)
    else l.(open := false, file := l.file + [if footer == Whole then line else Torn])
  }

  function Step(l: Log, event: Event): Log {
    match event
    case Flush(items, dropped, fault) => if !l.open || l.failed then l else Appended(l, items, dropped, fault)
    case Copy(items, dropped, fault, _) => if !l.open || l.failed then l else Appended(l, items, dropped, fault)
    case Close(finalize, items, dropped, fault, footer) =>
      if !l.open then l else Finished(Appended(l, items, dropped, fault), finalize, footer)
  }

  function Run(l: Log, events: seq<Event>): Log
    decreases |events|
  {
    if events == [] then l else Run(Step(l, events[0]), events[1..])
  }

  class TrafficLogWriter {
    var open: bool
    var after: nat
    var written: nat
    var gaps: nat
    var dropped: nat
    var failed: bool
    var file: seq<Line>

    constructor ()
      ensures New(Now())
    {
      open, after, written, gaps, dropped, failed, file := true, 0, 0, 0, 0, false, [];
    }

    ghost function Now(): Log
      reads this
    {
      Log(open, after, written, gaps, dropped, failed, file)
    }

    method Append(items: seq<nat>, drops: nat, fault: Fault)
      modifies this
      ensures Now() == Appended(old(Now()), items, drops, fault)
    {
      var next, appended := after, 0;
      var out: seq<nat> := [];
      for i := 0 to |items|
        invariant out == Fresh(items[..i], after) && next == LastOr(out, after) && appended == |out|
        invariant Now() == old(Now()).(gaps := old(gaps) + GapsOf(out, after))
      {
        assert items[..i + 1][..i] == items[..i];
        if items[i] > after {
          if items[i] > next + 1 {
            gaps := gaps + items[i] - next - 1;
          }
          assert (out + [items[i]])[..|out|] == out;
          out := out + [items[i]];
          next := items[i];
          appended := appended + 1;
        }
      }
      assert items[..|items|] == items;
      if out == [] {
        return;
      }
      file := file + Landed(Rows(out), fault);
      if fault != Fine {
        failed := true;
        return;
      }
      after := next;
      written := written + appended;
      dropped := drops;
    }

    method FlushNew(items: seq<nat>, drops: nat, fault: Fault)
      modifies this
      ensures Now() == Step(old(Now()), Flush(items, drops, fault))
      ensures !old(open) || old(failed) ==> Now() == old(Now())
      ensures open == old(open) && old(file) <= file && (old(failed) ==> failed)
    {
      if !open || failed {
        return;
      }
      Append(items, drops, fault);
    }

    /** `copies`: writing the copy succeeds. */
    method CopyTo(items: seq<nat>, drops: nat, fault: Fault, syncs: bool, copies: bool)
      returns (ok: bool, copy: seq<Line>)
      modifies this
      ensures Now() == Step(old(Now()), Copy(items, drops, fault, syncs))
      ensures ok ==> copy == file
      ensures ok == ((!open || syncs) && copies)
    {
      if open && !failed {
        Append(items, drops, fault);
      }
      if (open && !syncs) || !copies {
        return false, [];
      }
      return true, file;
    }

    method Close(finalize: bool, items: seq<nat>, drops: nat, fault: Fault, footer: FooterFault)
      modifies this
      ensures Now() == Step(old(Now()), Event.Close(finalize, items, drops, fault, footer))
    {
      if !open {
        return;
      }
      Append(items, drops, fault);
      if !failed && finalize && footer != Missing {
        file := file + [if footer == Whole then Footer(written, gaps, dropped) else Torn];
      }
      open := false;
    }
  }
}
