/**
 * The editor transaction filters (`src/editor/transactions.ts`).
 *
 * A CodeMirror change is a `(from, to, insert)` record; a transaction's
 * changes are the `(fromA, toA, fromB, toB, inserted)` tuples its
 * `iterChanges` visits, offsets `A` in the document before it and `B` in the
 * document after it.  Editor documents are strings whose only line break is
 * `'\n'`; their lines are `EditorLines(doc)`.  The clock ("now"), the
 * plugin's settings and the workflow table are parameters.
 */
module Transactions {
  import opened Wrappers
  import opened Chars
  import opened Utils
  import opened Tasks
  import opened ParseAdapter
  import opened Logbooks
  import opened LogbookParsing

  /** A change: replace `[from, to)` by `insert`. */
  datatype Change = Change(from: int, to: int, insert: string)

  /** The `createLogbook` effect, carrying the number of the line where a new drawer goes. */
  datatype Effect = CreateLogbook(number: int)

  /** The changes and effects `updateLogbook` and the filters collect. */
  datatype Update = Update(changes: seq<Change>, effects: seq<Effect>)

  /** One change of a transaction, as `iterChanges` reports it. */
  datatype ChangeDesc = ChangeDesc(fromA: int, toA: int, fromB: int, toB: int, inserted: string)

  // ---------------------------------------------------------------------
  // `Text.lineAt`
  // ---------------------------------------------------------------------

  /** The index of the first line from `i` on that ends at or after `pos` (the last line if none does). */
  function LineIndexAt(lines: seq<ParseLine>, pos: int, i: nat): (k: nat)
    requires i < |lines|
    ensures i <= k < |lines|
    decreases |lines| - i
  {
    if i == |lines| - 1 || pos <= lines[i].to then i else LineIndexAt(lines, pos, i + 1)
  }

  /** Walking a chained line table from a line that starts at or before `pos` finds the line holding `pos`. */
  lemma {:induction false} LineIndexAtHolds(s: string, lines: seq<ParseLine>, pos: int, i: nat)
    requires Chained(s, Newline, lines) && i < |lines| && lines[i].from <= pos <= |s|
    ensures var k := LineIndexAt(lines, pos, i); lines[k].from <= pos <= lines[k].to
    decreases |lines| - i
  {
    if i == |lines| - 1 {
      ChainedLast(s, Newline, lines);
    } else if pos > lines[i].to {
      ChainedAt(s, Newline, lines, i);
      LineIndexAtHolds(s, lines, pos, i + 1);
    }
  }

  /** `doc.lineAt(pos)`: the line of an editor document that holds `pos`. */
  function LineAtPos(doc: string, pos: int): (line: ParseLine)
  {
    var lines := EditorLines(doc);
    lines[LineIndexAt(lines, pos, 0)]
  }

  /** For a position inside the document, `lineAt` gives the line that holds it, under its own number. */
  lemma LineAtPosHolds(doc: string, pos: int)
    requires 0 <= pos <= |doc|
    ensures var line := LineAtPos(doc, pos);
      && 1 <= line.number <= |EditorLines(doc)| && EditorLines(doc)[line.number - 1] == line
      && line.from <= pos <= line.to && LineOk(doc, Newline, line)
  {
    var lines := EditorLines(doc);
    EditorLinesTable(doc);
    LineIndexAtHolds(doc, lines, pos, 0);
  }

  // ---------------------------------------------------------------------
  // `updateLogbook`
  // ---------------------------------------------------------------------

  /** Some entry has no end. */
  predicate HasOpen(entries: seq<ClockEntry>) {
    exists i :: 0 <= i < |entries| && entries[i].end.None?
  }

  /** No two entries are open at once. */
  predicate AtMostOneOpen(entries: seq<ClockEntry>) {
    forall i, j :: 0 <= i < j < |entries| && entries[i].end.None? ==> entries[j].end.Some?
  }

  /**
   * The entries after the clock directive of the task's new state: `open`
   * appends an entry starting now unless one is open; `closed` ends the first
   * open entry now, and with a positive threshold completes it and drops it
   * when it lasted less than the threshold.
   */
  function Clocked(entries: seq<ClockEntry>, clock: ClockState, now: int, threshold: int): seq<ClockEntry> {
    match FirstOpenFrom(entries, 0)
    case None => if clock == Open then entries + [OpenEntry(now)] else entries
    case Some(i) =>
      if clock == Open then entries
      else
        var ended := entries[i].(end := Some(now));
        if threshold <= 0 then entries[i := ended]
        else
          var done := Complete(ended);
          if done.duration.Some? && done.duration.value < threshold then entries[..i] + entries[i + 1..]
          else entries[i := done]
  }

  /**
   * Under `open` the old entries stay, at most one is appended, and one is
   * open afterwards; a drawer with at most one open entry keeps at most one.
   */
  lemma ClockedOpen(entries: seq<ClockEntry>, now: int, threshold: int)
    ensures var r := Clocked(entries, Open, now, threshold);
      && entries <= r && |r| <= |entries| + 1 && HasOpen(r)
      && (AtMostOneOpen(entries) ==> AtMostOneOpen(r))
  {
    var r := Clocked(entries, Open, now, threshold);
    var first := FirstOpenFrom(entries, 0);
    if first.Some? {
      assert entries[first.value].end.None?;
    } else {
      assert r[|entries|].end.None?;
      assert forall k :: 0 <= k < |entries| ==> r[k] == entries[k];
    }
  }

  /** Under `closed` with no open entry nothing changes. */
  lemma ClockedClosedNone(entries: seq<ClockEntry>, now: int, threshold: int)
    requires !HasOpen(entries)
    ensures Clocked(entries, Closed, now, threshold) == entries
  {
    assert FirstOpenFrom(entries, 0).None?;
  }

  /** The first open entry is the one after which, and only after which, all are closed. */
  lemma {:induction false} FirstOpenAt(entries: seq<ClockEntry>, k: nat, i: nat)
    requires k <= i < |entries| && entries[i].end.None? && forall j :: k <= j < i ==> entries[j].end.Some?
    ensures FirstOpenFrom(entries, k) == Some(i)
    decreases i - k
  {
    if k < i {
      FirstOpenAt(entries, k + 1, i);
    }
  }

  /**
   * Under `closed` the first open entry, `i`, ends now: it is dropped
   * exactly when the threshold is positive and its completed duration is
   * below it; otherwise it keeps its place and start, and every other entry
   * is as it was.  No entry is open afterwards when at most one was before.
   */
  lemma ClockedClosedFirst(entries: seq<ClockEntry>, now: int, threshold: int, i: nat)
    requires i < |entries| && entries[i].end.None? && forall k :: 0 <= k < i ==> entries[k].end.Some?
    ensures var r := Clocked(entries, Closed, now, threshold);
      var dropped := threshold > 0 && Complete(entries[i].(end := Some(now))).duration.value < threshold;
      && (dropped ==> r == entries[..i] + entries[i + 1..])
      && (!dropped ==> |r| == |entries| && r[i].start == entries[i].start && r[i].end == Some(now)
                       && forall k :: 0 <= k < |entries| && k != i ==> r[k] == entries[k])
      && (AtMostOneOpen(entries) ==> !HasOpen(r))
  {
    var r := Clocked(entries, Closed, now, threshold);
    FirstOpenAt(entries, 0, i);
    if AtMostOneOpen(entries) {
      forall j | 0 <= j < |r| ensures r[j].end.Some? {
        if |r| < |entries| {
          if j < i {
            assert r[j] == entries[j];
          } else {
            assert r[j] == entries[j + 1];
          }
        } else if j != i {
          assert r[j] == entries[j];
        }
      }
    }
  }

  /**
   * Where `updateLogbook` writes a drawer that was not there: the start of
   * line `number`, or the end of the document after a newline when the
   * document has no such line.
   */
  function NewDrawerAt(doc: string, number: int): (spot: (int, string))
    requires 1 <= number
    ensures 0 <= spot.0 <= |doc|
  {
    var lines := EditorLines(doc);
    if number <= |lines| then
      EditorLinesTable(doc);
      (lines[number - 1].from, "")
    else (|doc|, "\n")
  }

  /** The logbook `parse` reads at line `number` of a document with line table `lines`, if any. */
  function ExistingDrawer(cal: Calendar, lines: seq<ParseLine>, number: int): Option<Drawer> {
    match ParseSpec(Kinds(cal, lines), lines, number, None)
    case Success(Some(d)) => Some(d)
    case _ => None
  }

  /**
   * The result of `updateLogbook` for the task on line `lineNumber` whose
   * new state is `state`, given the drawer `existing` found below it.
   */
  function UpdateSpec(cal: Calendar, doc: string, lineNumber: int, existing: Option<Drawer>, state: WorkflowState,
                      indentation: int, unit: string, now: int, threshold: int): Update
    requires 1 <= lineNumber && indentation >= -1
  {
    var entries := if existing.Some? then existing.value.entries else [];
    var updated := Clocked(entries, state.clockState, now, threshold);
    var effects :=
      if state.clockState == Open && FirstOpenFrom(entries, 0).None? && existing.None?
      then [CreateLogbook(lineNumber + 1)] else [];
    if |updated| == 0 then
      Update(if existing.Some? then [Change(existing.value.from - 1, existing.value.to, "")] else [], effects)
    else
      var text := Render(cal, CompleteAll(updated), indentation + 1, unit);
      if existing.Some? then
        Update([Change(existing.value.from, existing.value.to, text)], effects)
      else
        var spot := NewDrawerAt(doc, lineNumber + 1);
        Update([Change(spot.0, spot.0, spot.1 + text + "\n")], effects)
  }

  /** The `createLogbook` effect is emitted exactly when an `open` state creates a drawer. */
  lemma UpdateEffects(cal: Calendar, doc: string, lineNumber: int, existing: Option<Drawer>, state: WorkflowState,
                      indentation: int, unit: string, now: int, threshold: int)
    requires 1 <= lineNumber && indentation >= -1
    ensures var u := UpdateSpec(cal, doc, lineNumber, existing, state, indentation, unit, now, threshold);
      u.effects == if state.clockState == Open && existing.None? then [CreateLogbook(lineNumber + 1)] else []
  {
  }

  /**
   * At most one change: none exactly when there was no drawer and the new
   * state closes the clock; the deletion of an existing drawer, with the
   * newline before it, when no entry is left; otherwise one replacement of
   * the drawer, or an insertion at the line below the task, holding the
   * rendered entries.
   */
  lemma UpdateChanges(cal: Calendar, doc: string, lineNumber: int, existing: Option<Drawer>, state: WorkflowState,
                      indentation: int, unit: string, now: int, threshold: int)
    requires 1 <= lineNumber && indentation >= -1
    ensures var u := UpdateSpec(cal, doc, lineNumber, existing, state, indentation, unit, now, threshold);
      var entries := if existing.Some? then existing.value.entries else [];
      var updated := Clocked(entries, state.clockState, now, threshold);
      && |u.changes| <= 1
      && (u.changes == [] <==> existing.None? && state.clockState == Closed)
      && (existing.Some? && updated == [] ==> u.changes == [Change(existing.value.from - 1, existing.value.to, "")])
      && (existing.Some? && updated != [] ==>
            u.changes == [Change(existing.value.from, existing.value.to,
                                 Render(cal, CompleteAll(updated), indentation + 1, unit))])
      && (existing.None? && state.clockState == Open ==>
            updated == [OpenEntry(now)] &&
            var spot := NewDrawerAt(doc, lineNumber + 1);
            u.changes == [Change(spot.0, spot.0, spot.1 + Render(cal, [OpenEntry(now)], indentation + 1, unit) + "\n")])
  {
    var entries := if existing.Some? then existing.value.entries else [];
    if existing.None? {
      assert FirstOpenFrom(entries, 0).None?;
      assert CompleteAll([OpenEntry(now)]) == [OpenEntry(now)];
    }
  }

  /**
   * `updateLogbook`: parses the drawer below line `lineNumber` or starts a
   * new one, applies the state's clock directive to it, and returns the
   * change that writes it back (with `indentation + 1` units before each
   * line) and the effects.
   */
  method UpdateLogbook(cal: Calendar, doc: string, lineNumber: int, state: WorkflowState,
                       indentation: int, unit: string, now: int, threshold: int) returns (u: Update)
    requires 1 <= lineNumber && indentation >= -1
    ensures u == UpdateSpec(cal, doc, lineNumber, ExistingDrawer(cal, EditorLines(doc), lineNumber + 1), state,
                            indentation, unit, now, threshold)
  {
    var logbookFrom := lineNumber + 1;
    var effects: seq<Effect> := [];
    ghost var existing := ExistingDrawer(cal, EditorLines(doc), logbookFrom);
    UpdateChanges(cal, doc, lineNumber, existing, state, indentation, unit, now, threshold);
    UpdateEffects(cal, doc, lineNumber, existing, state, indentation, unit, now, threshold);
    var logbook, newLogbook, outputPrefix := FindLogbook(cal, doc, logbookFrom);
    var outputSuffix := if newLogbook then "\n" else "";
    ghost var entries := logbook.lines;
    assert entries == if existing.Some? then existing.value.entries else [];
    var openClock := logbook.GetOpenClock();
    if state.clockState == Open && openClock.None? && newLogbook {
      effects := effects + [CreateLogbook(logbookFrom)];
    }
    ApplyClock(logbook, state.clockState, now, threshold);
    if |logbook.lines| <= 0 {
      if newLogbook {
        return Update([], effects);
      }
      return Update([Change(logbook.from - 1, logbook.to, "")], effects);
    }
    var text := logbook.ToString(cal, Some(indentation), unit);
    var newBlock := outputPrefix + text + outputSuffix;
    if !newLogbook {
      assert newBlock == text by {
        assert "" + text + "" == text;
      }
    }
    return Update([Change(logbook.from, logbook.to, newBlock)], effects);
  }

  /**
   * The first half of `updateLogbook`: the logbook `parse` reads at line
   * `logbookFrom`, or else a new empty one placed where a new drawer goes,
   * with the newline to write before it.
   */
  method FindLogbook(cal: Calendar, doc: string, logbookFrom: int) returns (logbook: Logbook, newLogbook: bool, outputPrefix: string)
    requires 1 <= logbookFrom
    ensures fresh(logbook)
    ensures newLogbook <==> ExistingDrawer(cal, EditorLines(doc), logbookFrom).None?
    ensures !newLogbook ==> ExistingDrawer(cal, EditorLines(doc), logbookFrom) == Some(DrawerOf(logbook)) && outputPrefix == ""
    ensures newLogbook ==> logbook.lines == [] && logbook.to == logbook.from && (logbook.from, outputPrefix) == NewDrawerAt(doc, logbookFrom)
  {
    var lines := EditorLines(doc);
    var parsed := Parse(cal, lines, logbookFrom, None);
    outputPrefix := "";
    newLogbook := false;
    if parsed.Success? && parsed.value.Some? {
      logbook := parsed.value.value;
    } else {
      var position := |doc|;
      if logbookFrom <= |lines| {
        EditorLinesTable(doc);
        position := lines[logbookFrom - 1].from;
      } else {
        outputPrefix := "\n";
      }
      logbook := new Logbook(position, position, []);
      newLogbook := true;
    }
  }

  /**
   * The clock directive of `updateLogbook` on `logbook`: an `open` state
   * starts an entry unless one is open; a `closed` state ends the open
   * entry at `now` and drops it when it is shorter than a positive
   * `threshold`.
   */
  method ApplyClock(logbook: Logbook, clock: ClockState, now: int, threshold: int)
    modifies logbook
    ensures logbook.lines == Clocked(old(logbook.lines), clock, now, threshold)
    ensures logbook.from == old(logbook.from) && logbook.to == old(logbook.to)
  {
    var openClock := logbook.GetOpenClock();
    if clock == Open {
      if openClock.None? {
        logbook.AddLine(OpenEntry(now));
      }
    } else if openClock.Some? {
      logbook.SetEndTime(openClock.value, now);
      if threshold > 0 {
        var line := logbook.EnsureLineComplete(openClock.value);
        if line.duration.Some? && line.duration.value < threshold {
          logbook.RemoveLine(openClock.value);
        }
      }
    }
  }

  // ---------------------------------------------------------------------
  // `logbookTransactionFilter`
  // ---------------------------------------------------------------------

  /** The indentation setting: tabs, or anything else (four spaces). */
  datatype IndentType = Tabs | Spaces

  /** The settings the filters read. */
  datatype Settings = Settings(
    minLogLineThreshold: int, indentType: IndentType, matchIndentation: bool, filterNewlines: bool)

  /** The unit `updateLogbook` indents drawer lines with. */
  function IndentChar(t: IndentType): (unit: string)
    ensures unit == "\t" || unit == "    "
  {
    if t == Tabs then "\t" else "    "
  }

  /** The search `findWorkflowState` runs for a checkbox: the state shows `checkbox`. */
  function CheckboxIs(checkbox: string): WorkflowState -> bool {
    (s: WorkflowState) => s.checkbox == checkbox
  }

  /** What the state/checkbox sync of one change queues, and the state whose clock directive then applies. */
  datatype Sync = Sync(changes: seq<Change>, stateDesc: Option<WorkflowState>)

  /**
   * The checkbox check: when the change touches the checkbox of a line that
   * names a state, the state whose checkbox is the line's replaces the name
   * (nothing is queued when no state has that checkbox).
   */
  function CheckboxSync(w: Workflow, status: WorkflowStatus, fromB: int, toB: int): Sync {
    var box := status.checkboxValueRange;
    if box.Some? && status.currentState.Some? && status.currentState.value != "" &&
       IsRangeOverlap(box.value.from, box.value.to, fromB, toB)
    then
      var found := FindWorkflowState(w, CheckboxIs(status.checkboxValue.GetOr("")));
      var name := status.currentStateRange;
      Sync(if found.Some? && name.from != 0 then [Change(name.from, name.to, found.value.name)] else [], found)
    else Sync([], None)
  }

  /**
   * Both checks of one change: after the checkbox check, when the change
   * touches the state name and the name is a key of the table, the
   * checkbox takes that state's checkbox char, or `- [c] ` replaces the
   * `- ` of a line without a checkbox; this state then overrides any state
   * the checkbox check found.
   */
  function SyncSpec(w: Workflow, status: WorkflowStatus, lineFrom: int, fromB: int, toB: int): Sync {
    var first := CheckboxSync(w, status, fromB, toB);
    var newState := status.currentState.GetOr("");
    var name := status.currentStateRange;
    if IsRangeOverlap(name.from, name.to, fromB, toB) && newState in Keys(w) then
      var desc := GetWorkflowState(w, newState).value;
      var box := status.checkboxValueRange;
      var change :=
        if status.checkboxValue.Some? && status.checkboxValue.value != "" then
          Change(if box.Some? then box.value.from else lineFrom,
                 if box.Some? then box.value.to else lineFrom,
                 desc.checkbox)
        else
          var list := status.listRange;
          Change(if box.Some? then box.value.from else if list.Some? then list.value.from else lineFrom + status.offset,
                 if box.Some? then box.value.to else if list.Some? then list.value.to else lineFrom + status.offset,
                 "- [" + desc.checkbox + "] ");
      Sync(first.changes + [change], Some(desc))
    else first
  }

  /**
   * The per-change body of `logbookTransactionFilter` for a change whose
   * new text is `[fromB, toB)` in `newDoc`: nothing for a deletion or for a
   * line without a status; otherwise the sync's changes, then the changes
   * and effects of `updateLogbook` for the state the sync settled on.
   */
  function ChangeSpec(cal: Calendar, w: Workflow, settings: Settings, newDoc: string, c: ChangeDesc, now: int): Update
    requires 0 <= c.fromB <= |newDoc|
  {
    if c.fromB == c.toB then Update([], [])
    else
      var line := LineAtPos(newDoc, c.fromB);
      LineAtPosHolds(newDoc, c.fromB);
      match StatusOf(w, line.text, line.from)
      case None => Update([], [])
      case Some(status) =>
        StatusShape(w, line.text, line.from);
        StatusUpdate(cal, w, settings, newDoc, line, status, c.fromB, c.toB, now)
  }

  /** The changes and effects for a change on the task line `line` whose status is `status`. */
  function StatusUpdate(cal: Calendar, w: Workflow, settings: Settings, newDoc: string, line: ParseLine,
                        status: WorkflowStatus, fromB: int, toB: int, now: int): Update
    requires 1 <= line.number && status.offset >= 0
  {
    var sync := SyncSpec(w, status, line.from, fromB, toB);
    if sync.stateDesc.None? then Update(sync.changes, [])
    else
      var u := UpdateSpec(cal, newDoc, line.number, ExistingDrawer(cal, EditorLines(newDoc), line.number + 1), sync.stateDesc.value,
                          if settings.matchIndentation then status.offset else -1,
                          IndentChar(settings.indentType), now, settings.minLogLineThreshold);
      Update(sync.changes + u.changes, u.effects)
  }

  /** `c` rewrites only text of the line that starts at `lineFrom` and holds `text`. */
  predicate OnLine(c: Change, lineFrom: int, text: string) {
    lineFrom <= c.from <= c.to <= lineFrom + |text|
  }

  /**
   * Every change the sync queues for a task line stays on that line: it
   * rewrites the state name, the checkbox char or the `- ` of the line.
   */
  lemma SyncOnLine(w: Workflow, text: string, lineFrom: int, fromB: int, toB: int)
    requires StatusOf(w, text, lineFrom).Some?
    ensures var sync := SyncSpec(w, StatusOf(w, text, lineFrom).value, lineFrom, fromB, toB);
      forall k :: 0 <= k < |sync.changes| ==> OnLine(sync.changes[k], lineFrom, text)
  {
    var status := StatusOf(w, text, lineFrom).value;
    StatusShape(w, text, lineFrom);
    StatusCheckbox(w, text, lineFrom);
    StatusState(w, text, lineFrom);
    SyncStaysOnLine(w, text, lineFrom, status, fromB, toB);
  }

  /** `SyncOnLine` for any status with the frame, checkbox and state of a status of the line. */
  lemma SyncStaysOnLine(w: Workflow, text: string, lineFrom: int, status: WorkflowStatus, fromB: int, toB: int)
    requires FrameOk(text, lineFrom, status) && CheckboxOk(text, lineFrom, status) && StateOk(w, text, lineFrom, status)
    ensures var sync := SyncSpec(w, status, lineFrom, fromB, toB);
      forall k :: 0 <= k < |sync.changes| ==> OnLine(sync.changes[k], lineFrom, text)
  {
    var first := CheckboxSync(w, status, fromB, toB);
    assert forall k :: 0 <= k < |first.changes| ==> OnLine(first.changes[k], lineFrom, text);
    var sync := SyncSpec(w, status, lineFrom, fromB, toB);
    if |sync.changes| > |first.changes| {
      assert sync.changes == first.changes + [sync.changes[|sync.changes| - 1]];
      assert OnLine(sync.changes[|sync.changes| - 1], lineFrom, text);
    }
  }

  /**
   * When the change touches the checkbox of a line naming a state, and not
   * the name itself, the sync settles on the first state of the table whose
   * checkbox is the line's and writes its name over the line's state name;
   * with no such state it queues nothing and settles on nothing.
   */
  lemma SyncCheckbox(w: Workflow, text: string, lineFrom: int, fromB: int, toB: int)
    requires StatusOf(w, text, lineFrom).Some?
    requires var status := StatusOf(w, text, lineFrom).value;
      && status.currentState.Some? && status.checkboxValueRange.Some?
      && IsRangeOverlap(status.checkboxValueRange.value.from, status.checkboxValueRange.value.to, fromB, toB)
      && !IsRangeOverlap(status.currentStateRange.from, status.currentStateRange.to, fromB, toB)
    requires lineFrom >= 0
    ensures var status := StatusOf(w, text, lineFrom).value;
      var sync := SyncSpec(w, status, lineFrom, fromB, toB);
      var box := status.checkboxValue.value;
      && (sync.stateDesc.None? <==> forall i :: 0 <= i < |w| ==> w[i].state.checkbox != box)
      && (sync.stateDesc.Some? ==>
            && sync.stateDesc.value.checkbox == box
            && (exists i :: 0 <= i < |w| && w[i].state == sync.stateDesc.value &&
                  forall j :: 0 <= j < i ==> w[j].state.checkbox != box)
            && sync.changes == [Change(status.currentStateRange.from, status.currentStateRange.to, sync.stateDesc.value.name)])
      && (sync.stateDesc.None? ==> sync.changes == [])
  {
    var status := StatusOf(w, text, lineFrom).value;
    StatusShape(w, text, lineFrom);
    StatusCheckbox(w, text, lineFrom);
    StatusState(w, text, lineFrom);
    var box := status.checkboxValue.value;
    var found := FindWorkflowState(w, CheckboxIs(box));
    assert forall s :: CheckboxIs(box)(s) <==> s.checkbox == box;
  }

  /**
   * When the change touches the state name and the name is a key of the
   * table, the sync settles on that state, whatever the checkbox check
   * found, and its last change writes that state's checkbox char over the
   * line's checkbox, or `- [c] ` over the `- ` of a line without one.
   */
  lemma SyncState(w: Workflow, text: string, lineFrom: int, fromB: int, toB: int)
    requires StatusOf(w, text, lineFrom).Some?
    requires var status := StatusOf(w, text, lineFrom).value;
      && status.currentState.Some?
      && IsRangeOverlap(status.currentStateRange.from, status.currentStateRange.to, fromB, toB)
    ensures var status := StatusOf(w, text, lineFrom).value;
      var sync := SyncSpec(w, status, lineFrom, fromB, toB);
      var i := status.offset;
      && sync.stateDesc.Some? && sync.stateDesc == GetWorkflowState(w, status.currentState.value)
      && 1 <= |sync.changes| <= 2
      && (status.checkboxValue.Some? ==>
            sync.changes[|sync.changes| - 1] == Change(lineFrom + i + 3, lineFrom + i + 4, sync.stateDesc.value.checkbox))
      && (status.checkboxValue.None? ==>
            sync.changes == [Change(lineFrom + i, lineFrom + i + 2, "- [" + sync.stateDesc.value.checkbox + "] ")])
  {
    var status := StatusOf(w, text, lineFrom).value;
    StatusShape(w, text, lineFrom);
    StatusCheckbox(w, text, lineFrom);
    StatusState(w, text, lineFrom);
    if status.checkboxValue.Some? {
      assert |status.checkboxValue.value| == 1 by {
        assert |text[status.offset + 2..status.offset + 6]| == 4;
      }
    }
  }

  /** A deletion, or a change on a line with no status, adds nothing. */
  lemma ChangeSpecQuiet(cal: Calendar, w: Workflow, settings: Settings, newDoc: string, c: ChangeDesc, now: int)
    requires 0 <= c.fromB <= |newDoc|
    requires c.fromB == c.toB || StatusOf(w, LineAtPos(newDoc, c.fromB).text, LineAtPos(newDoc, c.fromB).from).None?
    ensures ChangeSpec(cal, w, settings, newDoc, c, now) == Update([], [])
  {
  }

  /** The two checks of the per-change body, `stateDesc` reassigned as they fire. */
  method Synchronise(w: Workflow, status: WorkflowStatus, lineFrom: int, fromB: int, toB: int) returns (sync: Sync)
    ensures sync == SyncSpec(w, status, lineFrom, fromB, toB)
  {
    var newState := status.currentState.GetOr("");
    var changes: seq<Change> := [];
    var stateDesc: Option<WorkflowState> := None;
    var box := status.checkboxValueRange;
    var name := status.currentStateRange;
    if box.Some? && status.currentState.Some? && status.currentState.value != "" &&
       IsRangeOverlap(box.value.from, box.value.to, fromB, toB) {
      stateDesc := FindWorkflowState(w, CheckboxIs(status.checkboxValue.GetOr("")));
      if stateDesc.Some? && name.from != 0 {
        changes := changes + [Change(name.from, name.to, stateDesc.value.name)];
      }
    }
    assert Sync(changes, stateDesc) == CheckboxSync(w, status, fromB, toB);
    if IsRangeOverlap(name.from, name.to, fromB, toB) {
      if newState in Keys(w) {
        stateDesc := GetWorkflowState(w, newState);
        var checkbox := stateDesc.value.checkbox;
        if status.checkboxValue.Some? && status.checkboxValue.value != "" {
          changes := changes + [Change(if box.Some? then box.value.from else lineFrom,
                                       if box.Some? then box.value.to else lineFrom,
                                       checkbox)];
        } else {
          var list := status.listRange;
          var checkFrom := if box.Some? then box.value.from else if list.Some? then list.value.from else lineFrom + status.offset;
          var checkTo := if box.Some? then box.value.to else if list.Some? then list.value.to else lineFrom + status.offset;
          changes := changes + [Change(checkFrom, checkTo, "- [" + checkbox + "] ")];
        }
      }
    }
    return Sync(changes, stateDesc);
  }

  /** The per-change body of `logbookTransactionFilter`. */
  method ChangeBody(cal: Calendar, w: Workflow, settings: Settings, newDoc: string, c: ChangeDesc, now: int)
    returns (u: Update)
    requires 0 <= c.fromB <= |newDoc|
    ensures u == ChangeSpec(cal, w, settings, newDoc, c, now)
  {
    if c.fromB == c.toB {
      return Update([], []);
    }
    var line := LineAtPos(newDoc, c.fromB);
    LineAtPosHolds(newDoc, c.fromB);
    var workflow := StatusOf(w, line.text, line.from);
    if workflow.None? {
      return Update([], []);
    }
    var status := workflow.value;
    StatusShape(w, line.text, line.from);
    u := OnTaskLine(cal, w, settings, newDoc, line, status, c.fromB, c.toB, now);
  }

  /** The rest of the per-change body, once the changed line has a status. */
  method OnTaskLine(cal: Calendar, w: Workflow, settings: Settings, newDoc: string, line: ParseLine,
                    status: WorkflowStatus, fromB: int, toB: int, now: int) returns (u: Update)
    requires 1 <= line.number && status.offset >= 0
    ensures u == StatusUpdate(cal, w, settings, newDoc, line, status, fromB, toB, now)
  {
    var sync := Synchronise(w, status, line.from, fromB, toB);
    if sync.stateDesc.None? {
      return Update(sync.changes, []);
    }
    var logbook := UpdateLogbook(cal, newDoc, line.number, sync.stateDesc.value,
                                 if settings.matchIndentation then status.offset else -1,
                                 IndentChar(settings.indentType), now, settings.minLogLineThreshold);
    return Update(sync.changes + logbook.changes, logbook.effects);
  }

  /** What `logbookTransactionFilter` returns: the transaction itself, then possibly a follow-up. */
  datatype TransactionSpec = Original | FollowUp(changes: seq<Change>, effects: seq<Effect>)

  /** The changes and effects collected over the changes of a transaction, in order. */
  function Collected(cal: Calendar, w: Workflow, settings: Settings, newDoc: string, cs: seq<ChangeDesc>, now: int): Update
    requires forall i :: 0 <= i < |cs| ==> 0 <= cs[i].fromB <= |newDoc|
  {
    if cs == [] then Update([], [])
    else
      var u := Collected(cal, w, settings, newDoc, cs[..|cs| - 1], now);
      var v := ChangeSpec(cal, w, settings, newDoc, cs[|cs| - 1], now);
      Update(u.changes + v.changes, u.effects + v.effects)
  }

  /**
   * `logbookTransactionFilter`: the transaction comes first, and a
   * follow-up holding every collected change and effect is added exactly
   * when something was collected.
   */
  method LogbookTransactionFilter(cal: Calendar, w: Workflow, settings: Settings, newDoc: string,
                                  cs: seq<ChangeDesc>, now: int) returns (transactions: seq<TransactionSpec>)
    requires forall i :: 0 <= i < |cs| ==> 0 <= cs[i].fromB <= |newDoc|
    ensures var all := Collected(cal, w, settings, newDoc, cs, now);
      && 1 <= |transactions| <= 2 && transactions[0] == Original
      && (|transactions| == 2 <==> |all.changes| > 0 || |all.effects| > 0)
      && (|transactions| == 2 ==> transactions[1] == FollowUp(all.changes, all.effects))
  {
    transactions := [Original];
    var changes: seq<Change> := [];
    var effects: seq<Effect> := [];
    for i := 0 to |cs|
      invariant Update(changes, effects) == Collected(cal, w, settings, newDoc, cs[..i], now)
    {
      var u := ChangeBody(cal, w, settings, newDoc, cs[i], now);
      assert cs[..i + 1][..i] == cs[..i];
      changes := changes + u.changes;
      effects := effects + u.effects;
    }
    assert cs[..|cs|] == cs;
    if |changes| > 0 || |effects| > 0 {
      transactions := transactions + [FollowUp(changes, effects)];
    }
  }

  // ---------------------------------------------------------------------
  // `taskNewlineFilter`
  // ---------------------------------------------------------------------

  /** The main range of the editor selection. */
  datatype Selection = Selection(from: int, to: int)

  /** The changes a relocation pass queues, the selection it leaves, and whether it moved anything. */
  datatype Relocated = Relocated(changes: seq<Change>, selection: Option<Selection>, moved: bool)

  /**
   * A multi-line insertion moved below a drawer ending at `at`: text before
   * its first newline stays at `[fromA, toA)`, the rest goes to `at`; a
   * missing selection, or a cursor just after the insertion point, becomes
   * a cursor after the moved text.
   */
  function Moved(c: ChangeDesc, at: int, selection: Option<Selection>): Relocated {
    var parts := Split(c.inserted, '\n');
    var first := if parts[0] != "" then [Change(c.fromA, c.toA, parts[0])] else [];
    var rest := if parts[0] != "" then [""] + parts[1..] else parts;
    var offset := if parts[0] != "" then |parts[0]| - (c.toA - c.fromA) else 0;
    var newInsert := Join(rest, '\n');
    var cursor := at + |newInsert| + offset;
    var sel :=
      if selection.None? || (selection.value.from == selection.value.to && selection.value.to == c.toA + 1)
      then Some(Selection(cursor, cursor)) else selection;
    Relocated(first + [Change(at, at, newInsert)], sel, true)
  }

  /**
   * One change of `taskNewlineFilter`: an insertion holding a newline that
   * ends at the end of a task line with a drawer right below is moved below
   * the drawer; any other change is kept as it is.
   */
  function RelocateSpec(cal: Calendar, w: Workflow, doc: string, c: ChangeDesc, selection: Option<Selection>): Relocated
    requires 0 <= c.fromA <= |doc|
  {
    var line := LineAtPos(doc, c.fromA);
    var keep := Relocated([Change(c.fromA, c.toA, c.inserted)], selection, false);
    if '\n' in c.inserted && c.toA == line.to && StatusOf(w, line.text, line.from).Some? then
      match ExistingDrawer(cal, EditorLines(doc), line.number + 1)
      case None => keep
      case Some(d) => Moved(c, d.to, selection)
    else keep
  }

  /**
   * Nothing typed is lost: the inserts of a move, in order, spell the
   * inserted text; the text after the first newline, newline included,
   * lands at `at`.
   */
  lemma MovedKeepsText(c: ChangeDesc, at: int, selection: Option<Selection>)
    requires '\n' in c.inserted
    ensures var r := Moved(c, at, selection);
      var parts := Split(c.inserted, '\n');
      && r.moved && r.changes[|r.changes| - 1].from == r.changes[|r.changes| - 1].to == at
      && (parts[0] != "" ==>
            |r.changes| == 2 && r.changes[0] == Change(c.fromA, c.toA, parts[0]) &&
            r.changes[0].insert + r.changes[1].insert == c.inserted)
      && (parts[0] == "" ==> r.changes == [Change(at, at, c.inserted)])
  {
    var parts := Split(c.inserted, '\n');
    SplitHead(c.inserted, '\n');
    if parts[0] != "" {
      JoinEmptyHead(parts[1..], '\n');
    }
  }

  /** A text holding the separator splits into its first part, the separator, and the join of the rest. */
  lemma SplitHead(t: string, sep: char)
    requires sep in t
    ensures var parts := Split(t, sep); |parts| >= 2 && t == parts[0] + [sep] + Join(parts[1..], sep)
  {
    var parts := Split(t, sep);
    JoinSplit(t, sep);
    SplitPartsFree(t, sep);
    JoinAppend(parts, sep);
  }

  /** Joining after an empty first part starts with the separator. */
  lemma JoinEmptyHead(rest: seq<string>, sep: char)
    requires |rest| >= 1
    ensures Join([""] + rest, sep) == [sep] + Join(rest, sep)
  {
    JoinAppend([""] + rest, sep);
    assert ([""] + rest)[1..] == rest;
  }

  /**
   * As written, a typed newline that replaces a selection at the end of a
   * task line keeps the selected text: with nothing before the newline, the
   * only change is the insertion below the drawer, and `[fromA, toA)` is
   * not deleted.
   */
  lemma MovedKeepsReplacedText(c: ChangeDesc, at: int, selection: Option<Selection>)
    requires c.inserted == "\n" && c.fromA < c.toA
    ensures var r := Moved(c, at, selection);
      forall k :: 0 <= k < |r.changes| ==> r.changes[k].from == r.changes[k].to == at
  {
    assert "\n" == "" + ['\n'] + "";
    SplitAppend("", "", '\n');
    SplitNone("", '\n');
    MovedKeepsText(c, at, selection);
  }

  /**
   * A change is either kept with the selection as it was, or moved: then
   * the line it ends is a task line, the drawer `parse` reads below it
   * starts on a later line, and the text after the first newline goes to
   * the drawer's end.
   */
  lemma RelocateCases(cal: Calendar, w: Workflow, doc: string, c: ChangeDesc, selection: Option<Selection>)
    requires 0 <= c.fromA <= |doc|
    ensures var r := RelocateSpec(cal, w, doc, c, selection);
      var line := LineAtPos(doc, c.fromA);
      && (!r.moved ==> r.changes == [Change(c.fromA, c.toA, c.inserted)] && r.selection == selection)
      && (r.moved ==>
            && '\n' in c.inserted && c.toA == line.to && StatusOf(w, line.text, line.from).Some?
            && ExistingDrawer(cal, EditorLines(doc), line.number + 1).Some?
            && var d := ExistingDrawer(cal, EditorLines(doc), line.number + 1).value;
            && line.to < d.from
            && r == Moved(c, d.to, selection))
  {
    var r := RelocateSpec(cal, w, doc, c, selection);
    var line := LineAtPos(doc, c.fromA);
    if r.moved {
      LineAtPosHolds(doc, c.fromA);
      var lines := EditorLines(doc);
      EditorLinesTable(doc);
      var n := line.number;
      ChainedAt(doc, Newline, lines, n - 1);
    }
  }

  /** `taskNewlineFilter`'s pass for one change, shifting and unshifting the inserted lines. */
  method Relocate(cal: Calendar, w: Workflow, doc: string, c: ChangeDesc, selection: Option<Selection>)
    returns (r: Relocated)
    requires 0 <= c.fromA <= |doc|
    ensures r == RelocateSpec(cal, w, doc, c, selection)
  {
    var line := LineAtPos(doc, c.fromA);
    LineAtPosHolds(doc, c.fromA);
    if '\n' in c.inserted && c.toA == line.to {
      var workflow := StatusOf(w, line.text, line.from);
      if workflow.Some? {
        var logbook := Parse(cal, EditorLines(doc), line.number + 1, None);
        if logbook.Success? && logbook.value.Some? {
          var book := logbook.value.value;
          r := MoveBelow(c, book.to, selection);
          return;
        }
      }
    }
    return Relocated([Change(c.fromA, c.toA, c.inserted)], selection, false);
  }

  /** The move itself: the first inserted line is shifted off and an empty one unshifted in its place. */
  method MoveBelow(c: ChangeDesc, at: int, selection: Option<Selection>) returns (r: Relocated)
    ensures r == Moved(c, at, selection)
  {
    var insertedLines := Split(c.inserted, '\n');
    var offset := 0;
    var changes: seq<Change> := [];
    if insertedLines[0] != "" {
      var insert := insertedLines[0];
      insertedLines := insertedLines[1..];
      offset := |insert| - (c.toA - c.fromA);
      changes := changes + [Change(c.fromA, c.toA, insert)];
      insertedLines := [""] + insertedLines;
    }
    var newInsert := Join(insertedLines, '\n');
    changes := changes + [Change(at, at, newInsert)];
    var sel := selection;
    if selection.None? || (selection.value.from == selection.value.to && selection.value.to == c.toA + 1) {
      var cursor := at + |newInsert| + offset;
      sel := Some(Selection(cursor, cursor));
    }
    return Relocated(changes, sel, true);
  }

  /** The relocation passes over a transaction's changes, in order, the selection threaded through. */
  function RelocateAll(cal: Calendar, w: Workflow, doc: string, cs: seq<ChangeDesc>, selection: Option<Selection>): Relocated
    requires forall i :: 0 <= i < |cs| ==> 0 <= cs[i].fromA <= |doc|
  {
    if cs == [] then Relocated([], selection, false)
    else
      var r := RelocateAll(cal, w, doc, cs[..|cs| - 1], selection);
      var x := RelocateSpec(cal, w, doc, cs[|cs| - 1], r.selection);
      Relocated(r.changes + x.changes, x.selection, r.moved || x.moved)
  }

  /** When no change of a transaction moves, every change is kept as it was, in order. */
  lemma {:induction false} RelocateAllKept(cal: Calendar, w: Workflow, doc: string, cs: seq<ChangeDesc>, selection: Option<Selection>)
    requires forall i :: 0 <= i < |cs| ==> 0 <= cs[i].fromA <= |doc|
    requires !RelocateAll(cal, w, doc, cs, selection).moved
    ensures var r := RelocateAll(cal, w, doc, cs, selection);
      && r.selection == selection && |r.changes| == |cs|
      && forall i :: 0 <= i < |cs| ==> r.changes[i] == Change(cs[i].fromA, cs[i].toA, cs[i].inserted)
  {
    if cs != [] {
      var init := cs[..|cs| - 1];
      RelocateAllKept(cal, w, doc, init, selection);
      var r := RelocateAll(cal, w, doc, init, selection);
      RelocateCases(cal, w, doc, cs[|cs| - 1], r.selection);
    }
  }

  /**
   * Whether a change is moved below a drawer: it inserts a newline, ends at
   * the end of a task line, and `parse` reads a drawer on the next line.
   */
  predicate MovesBelow(cal: Calendar, w: Workflow, doc: string, c: ChangeDesc)
    requires 0 <= c.fromA <= |doc|
  {
    var line := LineAtPos(doc, c.fromA);
    && '\n' in c.inserted && c.toA == line.to && StatusOf(w, line.text, line.from).Some?
    && ExistingDrawer(cal, EditorLines(doc), line.number + 1).Some?
  }

  lemma RelocateSpecMoved(cal: Calendar, w: Workflow, doc: string, c: ChangeDesc, selection: Option<Selection>)
    requires 0 <= c.fromA <= |doc|
    ensures RelocateSpec(cal, w, doc, c, selection).moved <==> MovesBelow(cal, w, doc, c)
  {
    var line := LineAtPos(doc, c.fromA);
    if MovesBelow(cal, w, doc, c) {
      var d := ExistingDrawer(cal, EditorLines(doc), line.number + 1).value;
      assert RelocateSpec(cal, w, doc, c, selection) == Moved(c, d.to, selection);
    }
  }

  /**
   * A transaction's changes are relocated exactly when one of them ends a
   * task line with a newline and has a drawer right below it; nothing else
   * about the transaction, such as where it came from, decides this.
   */
  lemma {:induction false} RelocateAllMoved(cal: Calendar, w: Workflow, doc: string, cs: seq<ChangeDesc>, selection: Option<Selection>)
    requires forall i :: 0 <= i < |cs| ==> 0 <= cs[i].fromA <= |doc|
    ensures RelocateAll(cal, w, doc, cs, selection).moved <==>
      exists i :: 0 <= i < |cs| && MovesBelow(cal, w, doc, cs[i])
  {
    if cs != [] {
      var init := cs[..|cs| - 1];
      RelocateAllMoved(cal, w, doc, init, selection);
      var r := RelocateAll(cal, w, doc, init, selection);
      RelocateSpecMoved(cal, w, doc, cs[|cs| - 1], r.selection);
      if exists i :: 0 <= i < |init| && MovesBelow(cal, w, doc, init[i]) {
        var i :| 0 <= i < |init| && MovesBelow(cal, w, doc, init[i]);
        assert cs[i] == init[i];
      }
      if exists i :: 0 <= i < |cs| && MovesBelow(cal, w, doc, cs[i]) {
        var i :| 0 <= i < |cs| && MovesBelow(cal, w, doc, cs[i]);
        if i < |init| {
          assert init[i] == cs[i];
        }
      }
    }
  }

  /** What `taskNewlineFilter` returns: the transaction itself, or a replacement. */
  datatype NewlineResult = KeepTransaction | ReplaceTransaction(changes: seq<Change>, selection: Option<Selection>)

  /**
   * `taskNewlineFilter`: off unless the setting is on; otherwise every
   * change is passed through the relocation, and the transaction is
   * replaced exactly when some change moved.  Its second guard,
   * `!transaction.isUserEvent`, negates a method reference, which is always
   * truthy, so it never holds: user events and programmatic transactions
   * are treated alike.
   */
  method TaskNewlineFilter(cal: Calendar, w: Workflow, settings: Settings, doc: string,
                           cs: seq<ChangeDesc>, selection: Option<Selection>) returns (result: NewlineResult)
    requires settings.filterNewlines ==> forall i :: 0 <= i < |cs| ==> 0 <= cs[i].fromA <= |doc|
    ensures !settings.filterNewlines ==> result == KeepTransaction
    ensures settings.filterNewlines ==>
      var all := RelocateAll(cal, w, doc, cs, selection);
      result == if all.moved then ReplaceTransaction(all.changes, all.selection) else KeepTransaction
  {
    if !settings.filterNewlines {
      return KeepTransaction;
    }
    var changes: seq<Change> := [];
    var sel := selection;
    var shouldReplace := false;
    for i := 0 to |cs|
      invariant Relocated(changes, sel, shouldReplace) == RelocateAll(cal, w, doc, cs[..i], selection)
    {
      var r := Relocate(cal, w, doc, cs[i], sel);
      assert cs[..i + 1][..i] == cs[..i];
      changes := changes + r.changes;
      sel := r.selection;
      shouldReplace := shouldReplace || r.moved;
    }
    assert cs[..|cs|] == cs;
    if shouldReplace {
      return ReplaceTransaction(changes, sel);
    }
    return KeepTransaction;
  }
}
