/** What the observation log accounts for over any sequence of flushes, copies and closes. */
module ObservationLaws {
  import opened Prelude
  import opened ObservationLog

  function Sequences(file: seq<Line>): seq<nat> {
    if file == [] then []
    else
      var last := file[|file| - 1];
      Sequences(file[..|file| - 1]) + if last.Row? then [last.sequence] else []
  }

  lemma {:induction false} SequencesOfSum(a: seq<Line>, b: seq<Line>)
    ensures Sequences(a + b) == Sequences(a) + Sequences(b)
    decreases |b|
  {
    if b == [] {
      assert a + b == a;
    } else {
      SequencesOfSum(a, b[..|b| - 1]);
      assert (a + b)[..|a + b| - 1] == a + b[..|b| - 1];
    }
  }

  lemma {:induction false} SequencesOfRows(rows: seq<nat>)
    ensures Sequences(Rows(rows)) == rows
    decreases |rows|
  {
    if rows != [] {
      SequencesOfRows(rows[..|rows| - 1]);
      assert Rows(rows)[..|rows| - 1] == Rows(rows[..|rows| - 1]);
    }
  }

  /** The batch is what the observer reports beyond what is already in the file. */
  lemma {:induction false} FreshMeaning(items: seq<nat>, after: nat)
    requires Increasing(items)
    ensures Increasing(Fresh(items, after))
    ensures forall x :: x in Fresh(items, after) <==> x in items && after < x
    decreases |items|
  {
    if items != [] {
      var init, last := items[..|items| - 1], items[|items| - 1];
      FreshMeaning(init, after);
      assert items == init + [last];
      var before := Fresh(init, after);
      forall i | 0 <= i < |before| ensures before[i] < last {
        assert before[i] in init;
        var k :| 0 <= k < |init| && init[k] == before[i];
        assert items[k] < items[|init|];
      }
    }
  }

  /** Rows and gaps of an increasing batch together cover the distance it advances. */
  lemma {:induction false} GapsCover(rows: seq<nat>, after: nat)
    requires Increasing(rows) && forall x :: x in rows ==> after < x
    ensures |rows| + GapsOf(rows, after) == LastOr(rows, after) - after
    decreases |rows|
  {
    if rows != [] {
      var init := rows[..|rows| - 1];
      forall x | x in init ensures after < x { assert x in rows; }
      GapsCover(init, after);
      if init != [] { assert rows[|init| - 1] < rows[|init|]; }
      assert rows[|rows| - 1] in rows;
    }
  }

  /** What a failed append leaves counted. */
  function Lost(l: Log, event: Event): nat {
    var tries := l.open && (event.Close? || !l.failed);
    if tries && event.fault != Fine then GapsOf(Fresh(event.items, l.after), l.after) else 0
  }

  function TotalLost(l: Log, events: seq<Event>): nat
    decreases |events|
  {
    if events == [] then 0 else Lost(l, events[0]) + TotalLost(Step(l, events[0]), events[1..])
  }

  predicate Observed(events: seq<Event>) { forall e :: e in events ==> Increasing(e.items) }

  lemma {:induction false} AppendedBalance(l: Log, items: seq<nat>, dropped: nat, fault: Fault)
    requires Increasing(items)
    ensures var a := Appended(l, items, dropped, fault);
      a.written + a.gaps + l.after ==
        a.after + l.written + l.gaps + if fault == Fine then 0 else GapsOf(Fresh(items, l.after), l.after)
    ensures Appended(l, items, dropped, fault).open == l.open
  {
    hide GapsOf, Landed, Rows;
    FreshMeaning(items, l.after);
    GapsCover(Fresh(items, l.after), l.after);
    if Fresh(items, l.after) == [] { NoGaps(l.after); }
  }

  lemma {:induction false} NoGaps(after: nat)
    ensures GapsOf([], after) == 0
  {
  }

  /** Over every run, rows plus gaps exceed the last sequence by exactly the gaps of the appends
      that failed: counted before the write, and never taken back. */
  lemma {:induction false} RunBalance(l: Log, events: seq<Event>)
    requires Observed(events)
    ensures var r := Run(l, events);
      r.written + r.gaps + l.after == r.after + l.written + l.gaps + TotalLost(l, events)
    decreases |events|
  {
    hide Appended, GapsOf, Fresh;
    if events != [] {
      assert events[0] in events;
      StepBalance(l, events[0]);
      RunBalance(Step(l, events[0]), events[1..]);
    }
  }

  lemma StepBalance(l: Log, event: Event)
    requires Increasing(event.items)
    ensures var r := Step(l, event); r.written + r.gaps + l.after == r.after + l.written + l.gaps + Lost(l, event)
  {
    hide Appended, GapsOf, Fresh;
    AppendedBalance(l, event.items, event.dropped, event.fault);
  }

  // ---- the law of the log ----

  predicate NoFooter(file: seq<Line>) { forall line :: line in file ==> !line.Footer? }

  /** While no error is recorded: the rows are strictly increasing and end at `after`, and they and
      the gaps account for every sequence up to it. */
  predicate Accounted(l: Log) {
    !l.failed ==>
      && Increasing(Sequences(l.file)) && (forall x :: x in Sequences(l.file) ==> 0 < x)
      && LastOr(Sequences(l.file), 0) == l.after && |Sequences(l.file)| == l.written
      && l.written + l.gaps == l.after
  }

  /** At most one footer: the last line of a closed log without error, stating what was accounted. */
  predicate FooterIsHonest(l: Log) {
    && (l.open || l.failed ==> NoFooter(l.file))
    && forall i :: 0 <= i < |l.file| && l.file[i].Footer? ==>
         i == |l.file| - 1 && l.file[i] == Footer(l.written, l.gaps, l.dropped)
  }

  lemma AppendedIsAccounted(l: Log, items: seq<nat>, dropped: nat, fault: Fault)
    requires Accounted(l) && Increasing(items)
    ensures Accounted(Appended(l, items, dropped, fault))
  {
    hide GapsOf, Fresh, Sequences;
    var rows := Fresh(items, l.after);
    if !l.failed && rows != [] && fault == Fine {
      FreshMeaning(items, l.after);
      GapsCover(rows, l.after);
      SequencesOfRows(rows);
      SequencesOfSum(l.file, Rows(rows));
      IncreasingSum(Sequences(l.file), rows);
    }
  }

  lemma IncreasingSum(a: seq<nat>, b: seq<nat>)
    requires Increasing(a) && Increasing(b) && forall x :: x in b ==> LastOr(a, 0) < x
    ensures Increasing(a + b)
  {
    forall i, j | 0 <= i < j < |a + b| ensures (a + b)[i] < (a + b)[j] {
      if i < |a| <= j {
        assert b[j - |a|] in b;
        assert a[i] <= a[|a| - 1];
      }
    }
  }

  lemma AppendedHasNoFooter(l: Log, items: seq<nat>, dropped: nat, fault: Fault)
    requires NoFooter(l.file)
    ensures NoFooter(Appended(l, items, dropped, fault).file)
  {
    hide GapsOf, Fresh;
    var lines := Rows(Fresh(items, l.after));
    forall line | line in lines ensures !line.Footer? {
      var k :| 0 <= k < |lines| && lines[k] == line;
    }
  }

  lemma FinishedIsAccounted(l: Log, finalize: bool, footer: FooterFault)
    requires Accounted(l)
    ensures Accounted(Finished(l, finalize, footer))
  {
    SequencesOfSum(l.file, [Footer(l.written, l.gaps, l.dropped)]);
    SequencesOfSum(l.file, [Torn]);
  }

  lemma FinishedIsHonest(l: Log, finalize: bool, footer: FooterFault)
    requires NoFooter(l.file)
    ensures FooterIsHonest(Finished(l, finalize, footer))
  {
  }

  lemma StepKeepsLaw(l: Log, event: Event)
    requires Accounted(l) && FooterIsHonest(l) && Increasing(event.items)
    ensures Accounted(Step(l, event)) && FooterIsHonest(Step(l, event))
  {
    hide Appended, Accounted, Finished, NoFooter;
    if l.open {
      var a := Appended(l, event.items, event.dropped, event.fault);
      AppendedIsAccounted(l, event.items, event.dropped, event.fault);
      AppendedHasNoFooter(l, event.items, event.dropped, event.fault);
      AppendedBalance(l, event.items, event.dropped, event.fault);
      NoFooterIsHonest(a);
      if event.Close? {
        FinishedIsAccounted(a, event.finalize, event.footer);
        FinishedIsHonest(a, event.finalize, event.footer);
      }
    }
  }

  lemma NoFooterIsHonest(l: Log)
    requires NoFooter(l.file)
    ensures FooterIsHonest(l)
  {
  }

  /** Over every run from a new log, whatever faults occur. */
  lemma {:induction false} LogIsHonest(l: Log, events: seq<Event>)
    requires New(l) && Observed(events)
    ensures Accounted(Run(l, events)) && FooterIsHonest(Run(l, events))
  {
    hide Run;
    RunKeepsLaw(l, events);
  }

  lemma {:induction false} RunKeepsLaw(l: Log, events: seq<Event>)
    requires Accounted(l) && FooterIsHonest(l) && Observed(events)
    ensures Accounted(Run(l, events)) && FooterIsHonest(Run(l, events))
    decreases |events|
  {
    hide Step, Accounted, FooterIsHonest;
    if events != [] {
      assert events[0] in events;
      StepKeepsLaw(l, events[0]);
      RunKeepsLaw(Step(l, events[0]), events[1..]);
    }
  }

  // ---- what one operation does ----

  lemma {:induction false} LastIsFresh(items: seq<nat>, after: nat)
    requires Increasing(items)
    ensures Fresh(items, after) == [] <==> forall x :: x in items ==> x <= after
    ensures Fresh(items, after) == [] <==> items == [] || items[|items| - 1] <= after
    ensures Fresh(items, after) != [] ==> LastOr(Fresh(items, after), after) == items[|items| - 1]
  {
    FreshMeaning(items, after);
    assert Fresh(items, after) != [] ==> Fresh(items, after)[0] in items;
  }

  /** A flush that succeeds, and likewise a copy, adds just the new rows, and takes over the drop count
      with them. */
  lemma {:induction false} FlushMeaning(l: Log, items: seq<nat>, dropped: nat, syncs: bool)
    requires l.open && !l.failed && Increasing(items)
    ensures var f := Step(l, Flush(items, dropped, Fine));
      && Sequences(f.file) == Sequences(l.file) + Fresh(items, l.after) && f.open && !f.failed
      && f.dropped == (if exists x :: x in items && x > l.after then dropped else l.dropped)
      && f.after == (if items != [] && items[|items| - 1] > l.after then items[|items| - 1] else l.after)
      && f == Step(l, Copy(items, dropped, Fine, syncs))
  {
    hide Sequences, GapsOf, Fresh, Increasing;
    var rows := Fresh(items, l.after);
    FreshMeaning(items, l.after);
    LastIsFresh(items, l.after);
    SequencesOfRows(rows);
    SequencesOfSum(l.file, Rows(rows));
  }

  /** Closing ends the log; its last line is a footer exactly if one is asked for and reaches the file,
      and no error came before. */
  lemma FooterExactly(l: Log, close: Event)
    requires l.open && NoFooter(l.file) && close.Close?
    ensures var closed := Step(l, close);
      && !closed.open
      && (!NoFooter(closed.file) <==>
            && close.finalize && close.footer == Whole && !l.failed
            && (close.fault == Fine || Fresh(close.items, l.after) == []))
      && (!NoFooter(closed.file) ==>
            closed.file[|closed.file| - 1] == Footer(closed.written, closed.gaps, closed.dropped))
  {
    hide GapsOf, Fresh;
    var a := Appended(l, close.items, close.dropped, close.fault);
    AppendedHasNoFooter(l, close.items, close.dropped, close.fault);
    var closed := Step(l, close);
    var line := Footer(a.written, a.gaps, a.dropped);
    if closed.file == a.file + [line] { assert line in closed.file; }
  }

  /** A footer that is cut short leaves its torn line behind; without one the rows end the file. */
  lemma CutFooterTears(l: Log, close: Event)
    requires l.open && !l.failed && close.Close? && close.fault == Fine
    ensures var closed := Step(l, close);
      var flushed := Step(l, Flush(close.items, close.dropped, Fine));
      closed.file == flushed.file + if !close.finalize || close.footer == FooterFault.Missing then []
                                    else [if close.footer == Cut then Torn
                                          else Footer(flushed.written, flushed.gaps, flushed.dropped)]
  {
    hide GapsOf, Fresh;
  }

  /** What is closed stays as it is. */
  lemma {:induction false} ClosedStays(l: Log, events: seq<Event>)
    requires !l.open
    ensures Run(l, events) == l
    decreases |events|
  {
    if events != [] { ClosedStays(l, events[1..]); }
  }

  // ---- what the gaps count ----

  function Missing(rows: seq<nat>, upTo: nat): set<nat> {
    if upTo == 0 then {} else Missing(rows, upTo - 1) + if upTo in rows then {} else {upTo}
  }

  lemma {:induction false} MissingMeaning(rows: seq<nat>, upTo: nat)
    ensures forall x :: x in Missing(rows, upTo) <==> 0 < x <= upTo && x !in rows
  {
    if upTo > 0 { MissingMeaning(rows, upTo - 1); }
  }

  lemma {:induction false} MissingCount(rows: seq<nat>, upTo: nat)
    requires Increasing(rows) && (forall x :: x in rows ==> 0 < x <= upTo)
    ensures |Missing(rows, upTo)| + |rows| == upTo
    decreases upTo
  {
    hide Missing, Increasing;
    MissingStep(rows, upTo);
    if upTo == 0 {
      NoRows(rows);
    } else if upTo in rows {
      var init := rows[..|rows| - 1];
      LastIsLargest(rows, upTo);
      MissingCount(init, upTo - 1);
      SameMissing(init, rows, upTo - 1);
    } else {
      assert forall x :: x in rows ==> x != upTo;
      MissingCount(rows, upTo - 1);
    }
  }

  lemma MissingStep(rows: seq<nat>, upTo: nat)
    ensures upTo == 0 ==> Missing(rows, upTo) == {}
    ensures upTo > 0 ==> upTo !in Missing(rows, upTo - 1)
    ensures upTo > 0 ==> Missing(rows, upTo) == Missing(rows, upTo - 1) + if upTo in rows then {} else {upTo}
  {
    if upTo > 0 { MissingMeaning(rows, upTo - 1); }
  }

  lemma NoRows(rows: seq<nat>)
    requires forall x :: x in rows ==> 0 < x <= 0
    ensures rows == []
  {
    var last := LastOr(rows, 1);
    assert rows != [] ==> last in rows;
  }

  lemma LastIsLargest(rows: seq<nat>, upTo: nat)
    requires Increasing(rows) && upTo in rows && forall x :: x in rows ==> 0 < x <= upTo
    ensures var init := rows[..|rows| - 1];
      rows == init + [upTo] && Increasing(init) && forall x :: x in init ==> 0 < x <= upTo - 1
  {
    var k :| 0 <= k < |rows| && rows[k] == upTo;
    assert rows[|rows| - 1] in rows;
    assert k == |rows| - 1;
    var init := rows[..k];
    forall x | x in init ensures 0 < x <= upTo - 1 {
      var j :| 0 <= j < |init| && init[j] == x;
      assert rows[j] == x && rows[j] in rows;
    }
  }

  lemma {:induction false} SameMissing(a: seq<nat>, b: seq<nat>, upTo: nat)
    requires forall x :: x <= upTo ==> (x in a <==> x in b)
    ensures Missing(a, upTo) == Missing(b, upTo)
  {
    if upTo > 0 { SameMissing(a, b, upTo - 1); }
  }

  /** While no error is recorded, the gap counter is the number of sequences up to the last row
      that have no row. */
  lemma {:induction false} GapsAreTheMissing(first: Log, events: seq<Event>)
    requires New(first) && Observed(events) && !Run(first, events).failed
    ensures var l := Run(first, events); l.gaps == |Missing(Sequences(l.file), l.after)|
  {
    hide Run, Sequences, Missing;
    LogIsHonest(first, events);
    var l := Run(first, events);
    var rows := Sequences(l.file);
    forall x | x in rows ensures x <= l.after {
      var k :| 0 <= k < |rows| && rows[k] == x;
      assert rows[k] <= rows[|rows| - 1];
    }
    MissingCount(rows, l.after);
  }

  // ---- after an error ----

  /** Closing appends once more even after an error, from the same last sequence: whatever the observer
      reports by then, and whatever fails again, the log stays strictly increasing exactly when the
      rows of the close that reach the file start behind those of the failed flush that did. */
  lemma {:induction false} ClosingRepeatsRowsExactly(l: Log, items: seq<nat>, dropped: nat, fault: Fault, close: Event)
    requires l.open && !l.failed && Accounted(l) && fault != Fine && close.Close?
    requires Increasing(items) && Increasing(close.items)
    ensures var closed := Step(Step(l, Flush(items, dropped, fault)), close);
      var first := Sequences(Landed(Rows(Fresh(items, l.after)), fault));
      var second := Sequences(Landed(Rows(Fresh(close.items, l.after)), close.fault));
      Fresh(items, l.after) != [] ==>
        (Increasing(Sequences(closed.file)) <==> first == [] || second == [] || first[|first| - 1] < second[0])
  {
    hide GapsOf, Fresh, Sequences, Increasing, Landed, Accounted;
    var rows, more := Fresh(items, l.after), Fresh(close.items, l.after);
    var first, second := Landed(Rows(rows), fault), Landed(Rows(more), close.fault);
    if rows != [] {
      if more == [] { NothingLands(close.fault); }
      SequencesOfSum(l.file, first);
      SequencesOfSum(l.file + first, second);
      assert Sequences(l.file) + Sequences(first) + [] == Sequences(l.file) + Sequences(first);
      FreshRows(items, l.after, fault);
      FreshRows(close.items, l.after, close.fault);
      AccountedRows(l);
      JoinedIncreasing(Sequences(l.file), Sequences(first), Sequences(second), l.after);
    }
  }

  lemma AccountedRows(l: Log)
    requires Accounted(l) && !l.failed
    ensures Increasing(Sequences(l.file)) && forall x :: x in Sequences(l.file) ==> x <= l.after
  {
    hide Sequences;
    var rows := Sequences(l.file);
    forall x | x in rows ensures x <= l.after {
      var k :| 0 <= k < |rows| && rows[k] == x;
      assert rows[k] <= rows[|rows| - 1];
    }
  }

  lemma NothingLands(fault: Fault)
    ensures Sequences(Landed(Rows([]), fault)) == []
  {
    LandedIsPrefix([], fault);
  }

  /** The part of a batch that lands is increasing and new. */
  lemma {:induction false} FreshRows(items: seq<nat>, after: nat, fault: Fault)
    requires Increasing(items)
    ensures var landed := Sequences(Landed(Rows(Fresh(items, after)), fault));
      Increasing(landed) && forall x :: x in landed ==> after < x
  {
    hide Sequences, Landed, Fresh;
    FreshMeaning(items, after);
    LandedIsPrefix(Fresh(items, after), fault);
    var rows := Fresh(items, after);
    var landed := Sequences(Landed(Rows(rows), fault));
    forall x | x in landed ensures after < x {
      assert x in rows;
    }
  }

  lemma JoinedIncreasing(s: seq<nat>, t: seq<nat>, u: seq<nat>, after: nat)
    requires Increasing(s) && Increasing(t) && Increasing(u)
    requires (forall x :: x in s ==> x <= after) && (forall x :: x in t ==> after < x)
      && (forall x :: x in u ==> after < x)
    ensures Increasing(s + t + u) <==> t == [] || u == [] || t[|t| - 1] < u[0]
  {
    var all := s + t + u;
    if t != [] && u != [] {
      assert all[|s| + |t| - 1] == t[|t| - 1] && all[|s| + |t|] == u[0];
    }
    if t == [] || u == [] || t[|t| - 1] < u[0] {
      forall i, j | 0 <= i < j < |all| ensures all[i] < all[j] {
        if i < |s| { assert s[i] in s; }
        if |s| <= j < |s| + |t| { assert t[j - |s|] in t; }
        if |s| + |t| <= j { assert u[j - |s| - |t|] in u; }
        if |s| <= i < |s| + |t| <= j {
          assert t[i - |s|] <= t[|t| - 1];
          assert u[0] <= u[j - |s| - |t|];
        }
      }
    }
  }

  lemma LandedIsPrefix(rows: seq<nat>, fault: Fault)
    ensures var t := Sequences(Landed(Rows(rows), fault)); t <= rows
  {
    SequencesOfRows(rows);
    if fault.WriteFails? {
      var n := if fault.count <= |rows| then fault.count else |rows|;
      SequencesOfRows(rows[..n]);
      assert Rows(rows)[..n] == Rows(rows[..n]);
      var rest: seq<Line> := if fault.torn then [Torn] else [];
      assert fault.torn ==> rest[..0] == [];
      assert Sequences(rest) == [];
      SequencesOfSum(Rows(rows[..n]), rest);
      assert Landed(Rows(rows), fault) == Rows(rows[..n]) + rest;
    }
  }

  /** For instance, after a failed sync: the row twice, its gap twice, and no footer. */
  lemma FailedSyncRepeats(l: Log)
    requires New(l)
    ensures var closed := Step(Step(l, Flush([2], 0, SyncFails)), Event.Close(true, [2], 0, Fine, Whole));
      closed.file == [Row(2), Row(2)] && closed.written + closed.gaps == 3 && closed.after == 2
  {
    hide GapsOf, Fresh;
    One(0, 2);
  }

  lemma {:induction false} One(after: nat, x: nat)
    requires after + 1 < x
    ensures Fresh([x], after) == [x] && GapsOf([x], after) == x - after - 1 && Rows([x]) == [Row(x)]
  {
    assert [x][..0] == [];
  }
}
