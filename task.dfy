/**
 * The task-line recogniser and the workflow table (`src/tasks/task.ts`).
 *
 * A workflow is an ordered table of named states; a task line is
 * `<spaces/tabs>- [c] STATE<whitespace>` where the checkbox and the state are
 * each optional.  The regular expression of the source is replaced by a
 * hand-written matcher that follows its backtracking order.
 */
module Tasks {
  import opened Wrappers
  import opened Chars

  /** Whether entering a state opens or closes the task's clock. */
  datatype ClockState = Open | Closed

  datatype WorkflowState = WorkflowState(
    name: string, next: string, checkbox: string, clockState: ClockState, cssClass: string)

  /** One property of the workflow record: its key and its state. */
  datatype Entry = Entry(key: string, state: WorkflowState)

  /** A workflow record, its entries listed in JavaScript's key enumeration order. */
  type Workflow = seq<Entry>

  datatype WorkflowResult = WorkflowResult(name: string, state: WorkflowState)

  /** A half-open range of document offsets. */
  datatype Range = Range(from: int, to: int)

  /**
   * What a task line holds.  `currentStateRange` is always set (it starts as
   * an empty range); `listRange` is set whenever a line matches.  The
   * source's `currentWorkflowState` always equals `workflow` and is not
   * repeated here.
   */
  datatype WorkflowStatus = WorkflowStatus(
    from: int,
    to: int,
    offset: int,
    currentState: Option<string>,
    currentStateRange: Range,
    checkboxValue: Option<string>,
    checkboxValueRange: Option<Range>,
    listRange: Option<Range>,
    workflow: Option<WorkflowState>,
    indentation: int)

  /** The table the parser starts with: TODO -> DOING -> DONE -> TODO and LATER -> NOW -> DONE. */
  function DefaultWorkflow(): Workflow {
    [ Entry("TODO", WorkflowState("TODO", "DOING", " ", Closed, "logbook-task-state-paused")),
      Entry("DOING", WorkflowState("DOING", "DONE", " ", Open, "logbook-task-state-inprogress")),
      Entry("DONE", WorkflowState("DONE", "TODO", "x", Closed, "logbook-task-state-done")),
      Entry("LATER", WorkflowState("LATER", "NOW", " ", Closed, "logbook-task-state-paused")),
      Entry("NOW", WorkflowState("NOW", "DONE", " ", Open, "logbook-task-state-inprogress")) ]
  }

  /** `getWorkflowStates`: the keys, in order. */
  function Keys(w: Workflow): (keys: seq<string>)
    ensures |keys| == |w| && forall i :: 0 <= i < |w| ==> keys[i] == w[i].key
  {
    if w == [] then [] else [w[0].key] + Keys(w[1..])
  }

  /** `getWorkflowState`: the state stored under `key`, if any. */
  function GetWorkflowState(w: Workflow, key: string): (r: Option<WorkflowState>)
    ensures r.None? <==> key !in Keys(w)
    ensures r.Some? ==> exists i :: 0 <= i < |w| && w[i].key == key && w[i].state == r.value
  {
    if w == [] then None
    else if w[0].key == key then Some(w[0].state)
    else GetWorkflowState(w[1..], key)
  }

  /**
   * `findWorkflowState`: the first state, in table order, that satisfies
   * `matches`; none when no state does.
   */
  function FindWorkflowState(w: Workflow, matches: WorkflowState -> bool): (r: Option<WorkflowState>)
    ensures r.None? <==> forall i :: 0 <= i < |w| ==> !matches(w[i].state)
    ensures r.Some? ==> exists i :: 0 <= i < |w| && w[i].state == r.value && matches(r.value) &&
                          forall j :: 0 <= j < i ==> !matches(w[j].state)
  {
    if w == [] then None
    else if matches(w[0].state) then Some(w[0].state)
    else
      var r := FindWorkflowState(w[1..], matches);
      assert r.Some? ==> exists i :: 1 <= i < |w| && w[i].state == r.value && matches(r.value) &&
                          forall j :: 0 <= j < i ==> !matches(w[j].state) by {
        if r.Some? {
          var i :| 0 <= i < |w[1..]| && w[1..][i].state == r.value && matches(r.value) &&
                   forall j :: 0 <= j < i ==> !matches(w[1..][j].state);
          assert forall j :: 1 <= j < i + 1 ==> !matches(w[j].state) by {
            forall j | 1 <= j < i + 1 ensures !matches(w[j].state) {
              assert w[j] == w[1..][j - 1];
            }
          }
        }
      }
      r
  }

  /**
   * `proceedWorkflow`: with no current state (or an empty one), the first
   * table entry if its key is non-empty; otherwise the entry named by the
   * current state's `next`, or none when the state or its successor is not a
   * key of the table.
   */
  function ProceedWorkflow(w: Workflow, currentState: Option<string>): (r: Option<WorkflowResult>)
  {
    if currentState.None? || currentState.value == "" then
      if |w| > 0 && w[0].key != "" then Some(WorkflowResult(w[0].key, w[0].state)) else None
    else
      match GetWorkflowState(w, currentState.value)
      case None => None
      case Some(state) =>
        if state.next == "" then None
        else
          match GetWorkflowState(w, state.next)
          case None => None
          case Some(nextState) => Some(WorkflowResult(state.next, nextState))
  }

  /** The three cases of `proceedWorkflow`. */
  lemma ProceedWorkflowCases(w: Workflow, currentState: Option<string>)
    ensures var r := ProceedWorkflow(w, currentState);
      && (currentState.None? || currentState == Some("") ==>
            r == (if |w| > 0 && w[0].key != "" then Some(WorkflowResult(w[0].key, w[0].state)) else None))
      && (currentState.Some? && currentState.value != "" && currentState.value !in Keys(w) ==> r.None?)
      && (currentState.Some? && currentState.value != "" && currentState.value in Keys(w) ==>
            var state := GetWorkflowState(w, currentState.value).value;
            (r.Some? <==> state.next != "" && state.next in Keys(w)) &&
            (r.Some? ==> r.value.name == state.next && Some(r.value.state) == GetWorkflowState(w, state.next)))
  {
  }

  /** The state stored under a key is that of its first entry with that key. */
  lemma {:induction false} GetWorkflowStateAt(w: Workflow, i: nat, key: string)
    requires i < |w| && w[i].key == key
    requires forall j :: 0 <= j < i ==> w[j].key != key
    ensures GetWorkflowState(w, key) == Some(w[i].state)
    decreases i
  {
    if i > 0 {
      GetWorkflowStateAt(w[1..], i - 1, key);
    }
  }

  /** One step of `proceedWorkflow` from the first entry keyed `w[i].key` to the first keyed `w[j].key`. */
  lemma ProceedStep(w: Workflow, i: nat, j: nat)
    requires i < |w| && j < |w| && w[i].key != "" && w[j].key != "" && w[i].state.next == w[j].key
    requires forall k :: 0 <= k < i ==> w[k].key != w[i].key
    requires forall k :: 0 <= k < j ==> w[k].key != w[j].key
    ensures ProceedWorkflow(w, Some(w[i].key)) == Some(WorkflowResult(w[j].key, w[j].state))
  {
    GetWorkflowStateAt(w, i, w[i].key);
    GetWorkflowStateAt(w, j, w[j].key);
  }

  /** The default keys are pairwise distinct. */
  lemma DefaultKeysDistinct()
    ensures forall i, j :: 0 <= i < j < |DefaultWorkflow()| ==> DefaultWorkflow()[i].key != DefaultWorkflow()[j].key
  {
    var w := DefaultWorkflow();
    assert w[0].key[1] == 'O' && w[1].key[1] == 'O' && w[2].key[1] == 'O' && w[3].key[1] == 'A' && w[4].key[1] == 'O';
    assert w[0].key[2] == 'D' && w[1].key[2] == 'I' && w[2].key[2] == 'N' && w[4].key[2] == 'W';
  }

  /** With the default table, TODO -> DOING -> DONE -> TODO. */
  lemma DefaultCycle()
    ensures ProceedWorkflow(DefaultWorkflow(), Some("TODO")) == Some(WorkflowResult("DOING", DefaultWorkflow()[1].state))
    ensures ProceedWorkflow(DefaultWorkflow(), Some("DOING")) == Some(WorkflowResult("DONE", DefaultWorkflow()[2].state))
    ensures ProceedWorkflow(DefaultWorkflow(), Some("DONE")) == Some(WorkflowResult("TODO", DefaultWorkflow()[0].state))
  {
    var w := DefaultWorkflow();
    assert w[0].key == "TODO" && w[1].key == "DOING" && w[2].key == "DONE";
    DefaultStep(0, 1);
    DefaultStep(1, 2);
    DefaultStep(2, 0);
  }

  /** With the default table, LATER -> NOW -> DONE. */
  lemma DefaultLaterNow()
    ensures ProceedWorkflow(DefaultWorkflow(), Some("LATER")) == Some(WorkflowResult("NOW", DefaultWorkflow()[4].state))
    ensures ProceedWorkflow(DefaultWorkflow(), Some("NOW")) == Some(WorkflowResult("DONE", DefaultWorkflow()[2].state))
  {
    var w := DefaultWorkflow();
    assert w[2].key == "DONE" && w[3].key == "LATER" && w[4].key == "NOW";
    DefaultStep(3, 4);
    DefaultStep(4, 2);
  }

  /** The steps of the default table, by entry index. */
  lemma DefaultStep(i: nat, j: nat)
    requires (i, j) in {(0, 1), (1, 2), (2, 0), (3, 4), (4, 2)}
    ensures ProceedWorkflow(DefaultWorkflow(), Some(DefaultWorkflow()[i].key)) ==
      Some(WorkflowResult(DefaultWorkflow()[j].key, DefaultWorkflow()[j].state))
  {
    DefaultKeysDistinct();
    ProceedStep(DefaultWorkflow(), i, j);
  }

  /** Searching the default table for checkbox `x` yields a state whose checkbox is `x` (DONE). */
  lemma DefaultFindChecked()
    ensures FindWorkflowState(DefaultWorkflow(), (s: WorkflowState) => s.checkbox == "x") == Some(DefaultWorkflow()[2].state)
  {
    var w := DefaultWorkflow();
    var p := (s: WorkflowState) => s.checkbox == "x";
    assert !p(w[0].state) && !p(w[1].state) && p(w[2].state);
    assert w[1..][1..][0] == w[2];
  }

  // ---------------------------------------------------------------------
  // The line matcher
  // ---------------------------------------------------------------------

  /** What the task pattern captured: indentation width, checkbox char, state key, match length. */
  datatype TaskMatch = TaskMatch(indent: nat, checkbox: Option<char>, state: Option<string>, length: nat)

  /** The first index at or after `i` that is not a space or a tab. */
  function SkipBlanks(s: string, i: nat): (j: nat)
    requires i <= |s|
    ensures i <= j <= |s|
    ensures forall k :: i <= k < j ==> IsBlank(s[k])
    ensures j < |s| ==> !IsBlank(s[j])
    decreases |s| - i
  {
    if i == |s| || !IsBlank(s[i]) then i else SkipBlanks(s, i + 1)
  }

  /**
   * `(?<state>K1|K2|…)?\s` at `p`: the first key, in order, that is followed
   * by a whitespace char; failing that, a whitespace char at `p` itself.
   * Gives the key matched (if any) and the end of the match.
   */
  function StateThenSpace(keys: seq<string>, s: string, p: nat): (r: Option<(Option<string>, nat)>)
    requires p <= |s|
    ensures r.Some? ==> p < r.value.1 <= |s|
  {
    if keys == [] then
      if p < |s| && IsWhitespace(s[p]) then Some((None, p + 1)) else None
    else
      var k := keys[0];
      if p + |k| < |s| && s[p..p + |k|] == k && IsWhitespace(s[p + |k|]) then Some((Some(k), p + |k| + 1))
      else StateThenSpace(keys[1..], s, p)
  }

  predicate AllBlank(s: string) {
    forall i :: 0 <= i < |s| ==> IsBlank(s[i])
  }

  /** `- ` at `i`, after spaces and tabs only. */
  predicate ListAt(s: string, i: nat) {
    i + 2 <= |s| && AllBlank(s[..i]) && s[i..i + 2] == "- "
  }

  /**
   * From `p` to `end`: the state key if one was captured, then one
   * whitespace char that ends the match.
   */
  predicate StateShape(keys: seq<string>, s: string, p: nat, state: Option<string>, end: nat) {
    && p < end <= |s| && IsWhitespace(s[end - 1])
    && (state.Some? ==> state.value in keys && end == p + |state.value| + 1 && s[p..end - 1] == state.value)
    && (state.None? ==> end == p + 1)
  }

  /**
   * What a match of the task pattern consists of: spaces/tabs, `- `, the
   * checkbox `[c] ` if captured, the state key if captured, and one
   * whitespace char that ends the match.
   */
  predicate MatchShape(keys: seq<string>, s: string, m: TaskMatch) {
    && ListAt(s, m.indent)
    && (m.checkbox.Some? ==> CheckboxAt(s, m.indent + 2) && s[m.indent + 3] == m.checkbox.value)
    && StateShape(keys, s, m.indent + 2 + (if m.checkbox.Some? then 4 else 0), m.state, m.length)
  }

  /** Whether `[c] ` stands at `p`, `c` being any char but a line terminator. */
  predicate CheckboxAt(s: string, p: nat) {
    p + 4 <= |s| && s[p] == '[' && !IsLineTerminator(s[p + 1]) && s[p + 2] == ']' && s[p + 3] == ' '
  }

  /**
   * The workflow pattern `^(?<offset>[ \t]*)(?<list>- )(?:\[(?<checkbox>.)\] )?(?<state>…)?\s`
   * anchored at the start of `s`.  The checkbox alternative is tried first
   * and dropped only if the rest then fails.
   */
  function MatchTask(keys: seq<string>, s: string): (r: Option<TaskMatch>)
    ensures r.Some? ==> r.value.indent + 3 <= r.value.length <= |s|
  {
    var i := SkipBlanks(s, 0);
    if !(i + 2 <= |s| && s[i] == '-' && s[i + 1] == ' ') then None
    else
      var p := i + 2;
      var boxed := if CheckboxAt(s, p) then StateThenSpace(keys, s, p + 4) else None;
      if boxed.Some? then Some(TaskMatch(i, Some(s[p + 1]), boxed.value.0, boxed.value.1))
      else
        match StateThenSpace(keys, s, p)
        case None => None
        case Some(r) => Some(TaskMatch(i, None, r.0, r.1))
  }

  lemma {:induction false} StateThenSpaceShape(keys: seq<string>, s: string, p: nat)
    requires p <= |s|
    ensures var r := StateThenSpace(keys, s, p);
      r.Some? ==> StateShape(keys, s, p, r.value.0, r.value.1)
    decreases |keys|
  {
    if keys != [] {
      var k := keys[0];
      if !(p + |k| < |s| && s[p..p + |k|] == k && IsWhitespace(s[p + |k|])) {
        StateThenSpaceShape(keys[1..], s, p);
      }
    }
  }

  /** A match consists of exactly the parts the pattern names. */
  lemma MatchTaskShape(keys: seq<string>, s: string)
    ensures var r := MatchTask(keys, s);
      r.Some? ==> MatchShape(keys, s, r.value)
  {
    var i := SkipBlanks(s, 0);
    if i + 2 <= |s| && s[i] == '-' && s[i + 1] == ' ' {
      assert s[i..i + 2] == [s[i], s[i + 1]];
      assert ListAt(s, i);
      if CheckboxAt(s, i + 2) {
        StateThenSpaceShape(keys, s, i + 6);
      }
      StateThenSpaceShape(keys, s, i + 2);
    }
  }

  /** `^\s*(:LOGBOOK:$|CLOCK:|:END:$)`: the line is a drawer line. */
  predicate IsLogbookLine(s: string) {
    var j := SkipWhitespace(s, 0);
    s[j..] == ":LOGBOOK:" || (j + 6 <= |s| && s[j..j + 6] == "CLOCK:") || s[j..] == ":END:"
  }

  /**
   * `getWorkflowStatus(line, offset)`: none for drawer lines and for lines
   * the pattern rejects; otherwise every range shifted by `offset`.
   */
  function StatusOf(w: Workflow, line: string, offset: int): Option<WorkflowStatus>
  {
    if IsLogbookLine(line) then None
    else
      match MatchTask(Keys(w), line)
      case None => None
      case Some(m) => Some(BuildStatus(w, m, offset))
  }

  /** The status record of a match found at `offset`. */
  function BuildStatus(w: Workflow, m: TaskMatch, offset: int): WorkflowStatus {
    var listFrom := offset + m.indent;
    var stateFrom := listFrom + 2 + (if m.checkbox.Some? then 4 else 0);
    var hasState := m.state.Some? && m.state.value != "";
    WorkflowStatus(
      from := offset,
      to := offset + m.length,
      offset := m.indent,
      currentState := if hasState then m.state else None,
      currentStateRange := Range(stateFrom, if hasState then stateFrom + |m.state.value| else stateFrom),
      checkboxValue := if m.checkbox.Some? then Some([m.checkbox.value]) else None,
      checkboxValueRange := if m.checkbox.Some? then Some(Range(listFrom + 3, listFrom + 4)) else None,
      listRange := Some(Range(listFrom, listFrom + 2)),
      workflow := if hasState then GetWorkflowState(w, m.state.value) else None,
      indentation := m.indent)
  }

  /** A status is the record of the line's match, which has the pattern's shape. */
  lemma StatusOfMatch(w: Workflow, line: string, offset: int)
    requires StatusOf(w, line, offset).Some?
    ensures MatchTask(Keys(w), line).Some?
    ensures StatusOf(w, line, offset).value == BuildStatus(w, MatchTask(Keys(w), line).value, offset)
    ensures MatchShape(Keys(w), line, MatchTask(Keys(w), line).value)
  {
    MatchTaskShape(Keys(w), line);
  }

  /**
   * The frame of a status for `line` at `offset`: it starts at `offset`, its
   * indentation is spaces and tabs, `- ` follows, and a whitespace char ends
   * the match.
   */
  predicate FrameOk(line: string, offset: int, r: WorkflowStatus) {
    var i := r.offset;
    && r.from == offset && r.indentation == i && 0 <= i && i + 3 <= r.to - offset <= |line|
    && AllBlank(line[..i]) && line[i..i + 2] == "- "
    && r.listRange == Some(Range(offset + i, offset + i + 2))
    && IsWhitespace(line[r.to - offset - 1])
  }

  /**
   * The checkbox of a status: its value and its range are set together, and
   * the range spans exactly the char `c` of `[c] ` after `- `, which is not a
   * line terminator.
   */
  predicate CheckboxOk(line: string, offset: int, r: WorkflowStatus) {
    var i := r.offset;
    && (r.checkboxValue.Some? <==> r.checkboxValueRange.Some?)
    && (r.checkboxValue.Some? ==>
          0 <= i && i + 6 <= |line| && r.checkboxValueRange.value == Range(offset + i + 3, offset + i + 4) &&
          line[i + 2..i + 6] == "[" + r.checkboxValue.value + "] " && !IsLineTerminator(line[i + 3]))
  }

  /**
   * The state of a status: a named state spans exactly a non-empty table key
   * and is what the status looks up; without one the state range is empty,
   * just after `] ` or `- `.
   */
  predicate StateOk(w: Workflow, line: string, offset: int, r: WorkflowStatus) {
    && (r.currentState.Some? ==>
          var name := r.currentState.value;
          var sr := r.currentStateRange;
          name != "" && name in Keys(w) && r.workflow == GetWorkflowState(w, name) &&
          offset <= sr.from <= sr.to <= offset + |line| && sr.to < r.to &&
          line[sr.from - offset..sr.to - offset] == name)
    && (r.currentState.None? ==>
          r.workflow.None? &&
          r.currentStateRange.from == r.currentStateRange.to ==
            (if r.checkboxValueRange.Some? then r.checkboxValueRange.value.to + 2 else offset + r.offset + 2))
  }

  lemma BuildFrame(w: Workflow, line: string, m: TaskMatch, offset: int)
    requires MatchShape(Keys(w), line, m)
    ensures FrameOk(line, offset, BuildStatus(w, m, offset))
  {
    var r := BuildStatus(w, m, offset);
    assert r.offset == m.indent && r.to - offset == m.length;
  }

  /** Every status has the frame of a task line. */
  lemma StatusShape(w: Workflow, line: string, offset: int)
    requires StatusOf(w, line, offset).Some?
    ensures FrameOk(line, offset, StatusOf(w, line, offset).value)
  {
    StatusOfMatch(w, line, offset);
    BuildFrame(w, line, MatchTask(Keys(w), line).value, offset);
  }

  lemma BuildCheckbox(w: Workflow, line: string, m: TaskMatch, offset: int)
    requires MatchShape(Keys(w), line, m)
    ensures CheckboxOk(line, offset, BuildStatus(w, m, offset))
  {
    var i := m.indent;
    if m.checkbox.Some? {
      assert line[i + 2..i + 6] == [line[i + 2], line[i + 3], line[i + 4], line[i + 5]];
    }
  }

  /** Every status's checkbox value and range describe a `[c] ` on its line. */
  lemma StatusCheckbox(w: Workflow, line: string, offset: int)
    requires StatusOf(w, line, offset).Some?
    ensures CheckboxOk(line, offset, StatusOf(w, line, offset).value)
  {
    StatusOfMatch(w, line, offset);
    BuildCheckbox(w, line, MatchTask(Keys(w), line).value, offset);
  }

  lemma BuildState(w: Workflow, line: string, m: TaskMatch, offset: int)
    requires MatchShape(Keys(w), line, m)
    ensures StateOk(w, line, offset, BuildStatus(w, m, offset))
  {
  }

  /** Every status's state and state range describe a table key on its line, or an empty range. */
  lemma StatusState(w: Workflow, line: string, offset: int)
    requires StatusOf(w, line, offset).Some?
    ensures StateOk(w, line, offset, StatusOf(w, line, offset).value)
  {
    StatusOfMatch(w, line, offset);
    BuildState(w, line, MatchTask(Keys(w), line).value, offset);
  }

  /**
   * The state name starts right after `- `, or after `- [c] ` on a line
   * with a checkbox; so on a line at a non-negative offset it never starts
   * at offset 0 once a checkbox precedes it.
   */
  lemma StateRangeAfterList(w: Workflow, line: string, offset: int)
    requires StatusOf(w, line, offset).Some?
    ensures var r := StatusOf(w, line, offset).value;
      && r.currentStateRange.from == offset + r.offset + 2 + (if r.checkboxValueRange.Some? then 4 else 0)
      && (offset >= 0 && r.checkboxValueRange.Some? ==> r.currentStateRange.from >= offset + 6 > 0)
  {
    StatusOfMatch(w, line, offset);
  }

  /** A status begins where its line does. */
  lemma StatusStartsAtOffset(w: Workflow, line: string, offset: int)
    requires StatusOf(w, line, offset).Some?
    ensures StatusOf(w, line, offset).value.from == offset
  {
  }

  lemma {:induction false} StateThenSpaceFound(keys: seq<string>, s: string, p: nat, key: Option<string>)
    requires p <= |s|
    requires key.Some? ==> key.value in keys
    requires var n := if key.Some? then |key.value| else 0;
      p + n < |s| && (key.Some? ==> s[p..p + n] == key.value) && IsWhitespace(s[p + n])
    ensures StateThenSpace(keys, s, p).Some?
    decreases |keys|
  {
    if keys != [] {
      var k := keys[0];
      if !(p + |k| < |s| && s[p..p + |k|] == k && IsWhitespace(s[p + |k|])) {
        StateThenSpaceFound(keys[1..], s, p, key);
      }
    }
  }

  /** A line whose first char after spaces/tabs is `-` is not a drawer line. */
  lemma NotLogbookLine(s: string, i: nat)
    requires i < |s| && AllBlank(s[..i]) && s[i] == '-'
    ensures !IsLogbookLine(s)
    ensures SkipBlanks(s, 0) == i
  {
    assert forall k :: 0 <= k < i ==> IsBlank(s[k]) by {
      forall k | 0 <= k < i ensures IsBlank(s[k]) {
        assert s[..i][k] == s[k];
      }
    }
    SkipWhitespaceAt(s, 0, i);
    var j := SkipWhitespace(s, 0);
    assert s[j..][0] == '-';
    assert ":LOGBOOK:"[0] == ':' && ":END:"[0] == ':';
    if j + 6 <= |s| {
      assert s[j..j + 6][0] == '-' && "CLOCK:"[0] == 'C';
    }
  }

  /**
   * The pattern accepts every line made of spaces/tabs, `- `, an optional
   * `[c] ` (c not a line terminator), an optional table key and then one
   * whitespace char; such a line always has a status.
   */
  lemma StatusExists(w: Workflow, line: string, offset: int, i: nat, box: bool, key: Option<string>)
    requires i + 2 <= |line| && AllBlank(line[..i]) && line[i..i + 2] == "- "
    requires box ==> CheckboxAt(line, i + 2)
    requires key.Some? ==> key.value in Keys(w)
    requires var p := i + 2 + (if box then 4 else 0);
      var n := if key.Some? then |key.value| else 0;
      p + n < |line| && (key.Some? ==> line[p..p + n] == key.value) && IsWhitespace(line[p + n])
    ensures StatusOf(w, line, offset).Some?
  {
    assert line[i] == line[i..i + 2][0] && line[i + 1] == line[i..i + 2][1];
    NotLogbookLine(line, i);
    MatchTaskFound(Keys(w), line, i, box, key);
  }

  /** The matcher accepts a line built from the pattern's parts. */
  lemma MatchTaskFound(keys: seq<string>, line: string, i: nat, box: bool, key: Option<string>)
    requires i + 2 <= |line| && SkipBlanks(line, 0) == i && line[i] == '-' && line[i + 1] == ' '
    requires box ==> CheckboxAt(line, i + 2)
    requires key.Some? ==> key.value in keys
    requires var p := i + 2 + (if box then 4 else 0);
      var n := if key.Some? then |key.value| else 0;
      p + n < |line| && (key.Some? ==> line[p..p + n] == key.value) && IsWhitespace(line[p + n])
    ensures MatchTask(keys, line).Some?
  {
    var p := i + 2;
    if box {
      StateThenSpaceFound(keys, line, p + 4, key);
      assert CheckboxAt(line, p) && StateThenSpace(keys, line, p + 4).Some?;
    } else {
      StateThenSpaceFound(keys, line, p, key);
      assert StateThenSpace(keys, line, p).Some?;
    }
  }

  /** Lines that, after leading whitespace, are `:LOGBOOK:`, `:END:` or start with `CLOCK:` have no status. */
  lemma DrawerLinesHaveNoStatus(w: Workflow, ws: string, rest: string, offset: int)
    requires AllWhitespace(ws)
    requires rest == ":LOGBOOK:" || rest == ":END:" || (|rest| >= 6 && rest[..6] == "CLOCK:")
    ensures StatusOf(w, ws + rest, offset).None?
  {
    var s := ws + rest;
    assert s[|ws|] == rest[0];
    assert forall k :: 0 <= k < |ws| ==> s[k] == ws[k];
    SkipWhitespaceAt(s, 0, |ws|);
    assert s[|ws|..] == rest;
  }

  /** A line whose first char after spaces/tabs is not `-` has no status. */
  lemma NoDashNoStatus(w: Workflow, line: string, offset: int)
    requires var j := SkipBlanks(line, 0); j == |line| || line[j] != '-'
    ensures StatusOf(w, line, offset).None?
  {
  }

  lemma DefaultKeys()
    ensures Keys(DefaultWorkflow()) == ["TODO", "DOING", "DONE", "LATER", "NOW"]
  {
    var w := DefaultWorkflow();
    assert w[0].key == "TODO" && w[1].key == "DOING" && w[2].key == "DONE" && w[3].key == "LATER" && w[4].key == "NOW";
  }

  /** A line the task pattern rejects has no status. */
  lemma NoMatchNoStatus(w: Workflow, line: string, offset: int)
    requires MatchTask(Keys(w), line).None?
    ensures StatusOf(w, line, offset).None?
  {
  }

  /** After `- [ ] ` no key of the default table is followed by whitespace, and `T` is not whitespace. */
  lemma BareStateAfterBox()
    ensures StateThenSpace(["TODO", "DOING", "DONE", "LATER", "NOW"], "- [ ] TODO", 6).None?
  {
    var s := "- [ ] TODO";
    var keys := ["TODO", "DOING", "DONE", "LATER", "NOW"];
    assert s[6..9][0] == 'T';
    assert StateThenSpace(keys[4..], s, 6).None?;
    assert StateThenSpace(keys[3..], s, 6).None?;
    assert StateThenSpace(keys[2..], s, 6).None?;
    assert StateThenSpace(keys[1..], s, 6).None?;
  }

  /** After `- ` neither a default key nor whitespace follows. */
  lemma BareStateAfterList()
    ensures StateThenSpace(["TODO", "DOING", "DONE", "LATER", "NOW"], "- [ ] TODO", 2).None?
  {
    var s := "- [ ] TODO";
    var keys := ["TODO", "DOING", "DONE", "LATER", "NOW"];
    assert s[2] == '[';
    assert StateThenSpace(keys[4..], s, 2).None?;
    assert StateThenSpace(keys[3..], s, 2).None?;
    assert StateThenSpace(keys[2..], s, 2).None?;
    assert StateThenSpace(keys[1..], s, 2).None?;
  }

  /** Neither alternative of the pattern finds the whitespace it needs after `- [ ] TODO`. */
  lemma BareStateLineNoMatch()
    ensures MatchTask(["TODO", "DOING", "DONE", "LATER", "NOW"], "- [ ] TODO").None?
  {
    var s := "- [ ] TODO";
    assert s[0] == '-' && s[1] == ' ' && SkipBlanks(s, 0) == 0;
    BareStateAfterBox();
    BareStateAfterList();
  }

  /** The trailing whitespace is mandatory: `- [ ] TODO` alone has no status. */
  lemma BareStateLineHasNoStatus()
    ensures StatusOf(DefaultWorkflow(), "- [ ] TODO", 0).None?
  {
    DefaultKeys();
    BareStateLineNoMatch();
    NoMatchNoStatus(DefaultWorkflow(), "- [ ] TODO", 0);
  }

  // ---------------------------------------------------------------------
  // Whole-document scan
  // ---------------------------------------------------------------------

  /** `^` in a multi-line pattern: the start of the text or just after a line terminator. */
  predicate IsLineStart(doc: string, p: nat)
    requires p <= |doc|
  {
    p == 0 || IsLineTerminator(doc[p - 1])
  }

  /**
   * A pattern anchored with `^`: the length of its match at the start of a
   * text, if it matches there.  Matches are never empty.
   */
  type Pattern = string -> Option<nat>

  /** The pattern matches at `p`, covering a non-empty part of the rest of `doc`. */
  predicate MatchesAt(pattern: Pattern, doc: string, p: nat)
    requires p <= |doc|
  {
    var r := pattern(doc[p..]);
    r.Some? && 0 < r.value <= |doc| - p
  }

  /** One result of `matchAll`: where the match starts and the text it covers. */
  datatype RegexMatch = RegexMatch(index: nat, text: string)

  /**
   * `doc.matchAll(pattern)` with the `g` and `m` flags, from position `p` on:
   * each search starts at `lastIndex`, the end of the previous match, and
   * takes the first line start at which the pattern matches.
   */
  function MatchAll(pattern: Pattern, doc: string, p: nat, lastIndex: nat): seq<RegexMatch>
    requires p <= |doc|
    decreases |doc| - p
  {
    if p == |doc| then []
    else if lastIndex <= p && IsLineStart(doc, p) && MatchesAt(pattern, doc, p) then
      var n := pattern(doc[p..]).value;
      [RegexMatch(p, doc[p..p + n])] + MatchAll(pattern, doc, p + 1, p + n)
    else MatchAll(pattern, doc, p + 1, lastIndex)
  }

  lemma MatchAllMiss(pattern: Pattern, doc: string, p: nat, lastIndex: nat)
    requires p < |doc|
    requires !(lastIndex <= p && IsLineStart(doc, p) && MatchesAt(pattern, doc, p))
    ensures MatchAll(pattern, doc, p, lastIndex) == MatchAll(pattern, doc, p + 1, lastIndex)
  {
  }

  /** `m` is a non-empty match of `pattern` at a line start of `doc`. */
  predicate IsMatch(pattern: Pattern, doc: string, m: RegexMatch) {
    var q := m.index;
    q < |doc| && IsLineStart(doc, q) && 0 < |m.text| && q + |m.text| <= |doc| &&
    pattern(doc[q..]) == Some(|m.text|)
  }

  lemma MatchAllHit(pattern: Pattern, doc: string, p: nat, lastIndex: nat)
    requires p < |doc|
    requires lastIndex <= p && IsLineStart(doc, p) && MatchesAt(pattern, doc, p)
    ensures var n := pattern(doc[p..]).value;
      p + n <= |doc| &&
      MatchAll(pattern, doc, p, lastIndex) == [RegexMatch(p, doc[p..p + n])] + MatchAll(pattern, doc, p + 1, p + n)
  {
  }

  /** Every element is a match of `pattern` in `doc` holding the text it covers. */
  predicate AllMatches(pattern: Pattern, doc: string, ms: seq<RegexMatch>) {
    forall k :: 0 <= k < |ms| ==>
      IsMatch(pattern, doc, ms[k]) && ms[k].text == doc[ms[k].index..ms[k].index + |ms[k].text|]
  }

  /** No element starts before `bound`. */
  predicate StartFrom(ms: seq<RegexMatch>, bound: int) {
    forall k :: 0 <= k < |ms| ==> bound <= ms[k].index
  }

  /** Each element ends at or before the start of the next. */
  predicate Disjoint(ms: seq<RegexMatch>) {
    forall k :: 0 <= k < |ms| - 1 ==> ms[k].index + |ms[k].text| <= ms[k + 1].index
  }

  lemma AllMatchesCons(pattern: Pattern, doc: string, x: RegexMatch, rest: seq<RegexMatch>)
    requires IsMatch(pattern, doc, x) && x.text == doc[x.index..x.index + |x.text|]
    requires AllMatches(pattern, doc, rest)
    ensures AllMatches(pattern, doc, [x] + rest)
  {
    var ms := [x] + rest;
    forall k | 1 <= k < |ms| ensures ms[k] == rest[k - 1] {
    }
  }

  lemma StartFromCons(x: RegexMatch, rest: seq<RegexMatch>, bound: int)
    requires bound <= x.index && StartFrom(rest, bound)
    ensures StartFrom([x] + rest, bound)
  {
    var ms := [x] + rest;
    forall k | 1 <= k < |ms| ensures ms[k] == rest[k - 1] {
    }
  }

  lemma StartFromWeaken(ms: seq<RegexMatch>, a: int, b: int)
    requires a <= b && StartFrom(ms, b)
    ensures StartFrom(ms, a)
  {
  }

  lemma DisjointCons(x: RegexMatch, rest: seq<RegexMatch>)
    requires Disjoint(rest) && (|rest| > 0 ==> x.index + |x.text| <= rest[0].index)
    ensures Disjoint([x] + rest)
  {
    var ms := [x] + rest;
    forall k | 1 <= k < |ms| ensures ms[k] == rest[k - 1] {
    }
  }

  lemma DisjointAfter(x: RegexMatch, rest: seq<RegexMatch>, bound: int)
    requires Disjoint(rest) && StartFrom(rest, bound) && x.index + |x.text| <= bound
    ensures Disjoint([x] + rest)
  {
    if |rest| > 0 {
      assert bound <= rest[0].index;
    }
    DisjointCons(x, rest);
  }

  /** Every match lies at a line start and covers exactly what the pattern matches there. */
  lemma {:induction false} MatchAllSound(pattern: Pattern, doc: string, p: nat, lastIndex: nat)
    requires p <= |doc|
    ensures AllMatches(pattern, doc, MatchAll(pattern, doc, p, lastIndex))
    decreases |doc| - p
  {
    if p < |doc| {
      if lastIndex <= p && IsLineStart(doc, p) && MatchesAt(pattern, doc, p) {
        var n := pattern(doc[p..]).value;
        MatchAllHit(pattern, doc, p, lastIndex);
        MatchAllSound(pattern, doc, p + 1, p + n);
        AllMatchesCons(pattern, doc, RegexMatch(p, doc[p..p + n]), MatchAll(pattern, doc, p + 1, p + n));
      } else {
        MatchAllMiss(pattern, doc, p, lastIndex);
        MatchAllSound(pattern, doc, p + 1, lastIndex);
      }
    }
  }

  lemma MatchAllElement(pattern: Pattern, doc: string, k: int)
    requires 0 <= k < |MatchAll(pattern, doc, 0, 0)|
    ensures IsMatch(pattern, doc, MatchAll(pattern, doc, 0, 0)[k])
  {
    MatchAllSound(pattern, doc, 0, 0);
  }

  /** No match starts before `p` or before `lastIndex`. */
  lemma {:induction false} MatchAllAfter(pattern: Pattern, doc: string, p: nat, lastIndex: nat)
    requires p <= |doc|
    ensures StartFrom(MatchAll(pattern, doc, p, lastIndex), p)
    ensures StartFrom(MatchAll(pattern, doc, p, lastIndex), lastIndex)
    decreases |doc| - p
  {
    if p < |doc| {
      if lastIndex <= p && IsLineStart(doc, p) && MatchesAt(pattern, doc, p) {
        var n := pattern(doc[p..]).value;
        MatchAllHit(pattern, doc, p, lastIndex);
        MatchAllAfter(pattern, doc, p + 1, p + n);
        var rest := MatchAll(pattern, doc, p + 1, p + n);
        StartFromWeaken(rest, p, p + 1);
        StartFromWeaken(rest, lastIndex, p + 1);
        StartFromCons(RegexMatch(p, doc[p..p + n]), rest, p);
        StartFromCons(RegexMatch(p, doc[p..p + n]), rest, lastIndex);
      } else {
        MatchAllMiss(pattern, doc, p, lastIndex);
        MatchAllAfter(pattern, doc, p + 1, lastIndex);
        StartFromWeaken(MatchAll(pattern, doc, p + 1, lastIndex), p, p + 1);
      }
    }
  }

  /** Each match ends before the next one starts. */
  lemma {:induction false} MatchAllDisjoint(pattern: Pattern, doc: string, p: nat, lastIndex: nat)
    requires p <= |doc|
    ensures Disjoint(MatchAll(pattern, doc, p, lastIndex))
    decreases |doc| - p
  {
    if p < |doc| {
      if lastIndex <= p && IsLineStart(doc, p) && MatchesAt(pattern, doc, p) {
        var n := pattern(doc[p..]).value;
        MatchAllHit(pattern, doc, p, lastIndex);
        var rest := MatchAll(pattern, doc, p + 1, p + n);
        MatchAllDisjoint(pattern, doc, p + 1, p + n);
        MatchAllAfter(pattern, doc, p + 1, p + n);
        DisjointAfter(RegexMatch(p, doc[p..p + n]), rest, p + n);
      } else {
        MatchAllMiss(pattern, doc, p, lastIndex);
        MatchAllDisjoint(pattern, doc, p + 1, lastIndex);
      }
    }
  }

  /** Positions that are not line starts where the pattern matches contribute nothing. */
  lemma {:induction false} MatchAllSkip(pattern: Pattern, doc: string, p: nat, q: nat, lastIndex: nat)
    requires p <= q <= |doc|
    requires forall k :: p <= k < q ==> !(IsLineStart(doc, k) && MatchesAt(pattern, doc, k))
    ensures MatchAll(pattern, doc, p, lastIndex) == MatchAll(pattern, doc, q, lastIndex)
    decreases q - p
  {
    if p < q {
      MatchAllSkip(pattern, doc, p + 1, q, lastIndex);
    }
  }

  /** The task pattern over the given state keys. */
  function TaskPattern(keys: seq<string>): Pattern {
    (s: string) => if MatchTask(keys, s).Some? then Some(MatchTask(keys, s).value.length) else None
  }

  /** The defined results of `f` over `xs`, in order. */
  function FilterMap<T, U>(f: T -> Option<U>, xs: seq<T>): (r: seq<U>)
    ensures |r| <= |xs|
  {
    if xs == [] then []
    else
      var y := f(xs[|xs| - 1]);
      FilterMap(f, xs[..|xs| - 1]) + (if y.Some? then [y.value] else [])
  }

  lemma {:induction false} FilterMapCons<T, U>(f: T -> Option<U>, x: T, xs: seq<T>)
    ensures FilterMap(f, [x] + xs) == (if f(x).Some? then [f(x).value] else []) + FilterMap(f, xs)
    decreases |xs|
  {
    if xs != [] {
      var all := [x] + xs;
      assert all[..|all| - 1] == [x] + xs[..|xs| - 1];
      FilterMapCons(f, x, xs[..|xs| - 1]);
    }
  }

  lemma FilterMapSnoc<T, U>(f: T -> Option<U>, xs: seq<T>, x: T)
    ensures FilterMap(f, xs + [x]) == FilterMap(f, xs) + (if f(x).Some? then [f(x).value] else [])
  {
    assert (xs + [x])[..|xs|] == xs;
  }

  /** Extending the prefix of `xs` by one element appends that element's defined result. */
  lemma FilterMapStep<T, U>(f: T -> Option<U>, xs: seq<T>, i: nat)
    requires i < |xs|
    ensures FilterMap(f, xs[..i + 1]) == FilterMap(f, xs[..i]) + (if f(xs[i]).Some? then [f(xs[i]).value] else [])
  {
    FilterMapSnoc(f, xs[..i], xs[i]);
    assert xs[..i] + [xs[i]] == xs[..i + 1];
  }

  /** A defined result for the first element comes first. */
  lemma FilterMapFirst<T, U>(f: T -> Option<U>, xs: seq<T>, x: T, y: U)
    requires |xs| > 0 && xs[0] == x && f(x) == Some(y)
    ensures |FilterMap(f, xs)| > 0 && FilterMap(f, xs)[0] == y
  {
    FilterMapCons(f, xs[0], xs[1..]);
    assert [xs[0]] + xs[1..] == xs;
  }

  /** The status a match yields, at the match's position in the document. */
  function MatchStatus(w: Workflow, offset: int): RegexMatch -> Option<WorkflowStatus> {
    (m: RegexMatch) => StatusOf(w, m.text, offset + m.index)
  }

  lemma MatchStatusApply(w: Workflow, offset: int, m: RegexMatch)
    ensures MatchStatus(w, offset)(m) == StatusOf(w, m.text, offset + m.index)
  {
  }

  /** `getAllWorkflowStatuses`: the statuses of every match of the task pattern, in order. */
  function AllStatuses(w: Workflow, doc: string, offset: int): seq<WorkflowStatus> {
    FilterMap(MatchStatus(w, offset), MatchAll(TaskPattern(Keys(w)), doc, 0, 0))
  }

  /** The statuses start at strictly increasing offsets. */
  predicate Increasing(r: seq<WorkflowStatus>) {
    forall k :: 0 <= k < |r| - 1 ==> r[k].from < r[k + 1].from
  }

  /** `s` starts at one of the matches. */
  predicate AtSomeMatch(s: WorkflowStatus, offset: int, ms: seq<RegexMatch>) {
    exists j :: 0 <= j < |ms| && s.from == offset + ms[j].index
  }

  /** When each result sits at its match's position, every result sits at one of the matches. */
  lemma {:induction false} StatusesAtMatches(f: RegexMatch -> Option<WorkflowStatus>, offset: int, ms: seq<RegexMatch>)
    requires forall m :: f(m).Some? ==> f(m).value.from == offset + m.index
    ensures forall k :: 0 <= k < |FilterMap(f, ms)| ==> AtSomeMatch(FilterMap(f, ms)[k], offset, ms)
  {
    if ms != [] {
      var init := ms[..|ms| - 1];
      var last := ms[|ms| - 1];
      StatusesAtMatches(f, offset, init);
      var prev := FilterMap(f, init);
      var r := FilterMap(f, ms);
      assert r == prev + (if f(last).Some? then [f(last).value] else []);
      forall k | 0 <= k < |r| ensures AtSomeMatch(r[k], offset, ms) {
        if k < |prev| {
          assert r[k] == prev[k] && AtSomeMatch(prev[k], offset, init);
          var j :| 0 <= j < |init| && prev[k].from == offset + init[j].index;
          assert ms[j] == init[j];
        } else {
          assert r[k].from == offset + ms[|ms| - 1].index;
        }
      }
    }
  }

  /**
   * When each result sits at its match's position and the matches come in
   * increasing order, the results do too, none after the last match.
   */
  lemma {:induction false} StatusesFollowMatches(f: RegexMatch -> Option<WorkflowStatus>, offset: int, ms: seq<RegexMatch>)
    requires forall m :: f(m).Some? ==> f(m).value.from == offset + m.index
    requires IndexIncreasing(ms)
    ensures var r := FilterMap(f, ms);
      Increasing(r) && (|r| > 0 ==> r[|r| - 1].from <= offset + ms[|ms| - 1].index)
  {
    if ms != [] {
      var init := ms[..|ms| - 1];
      var m := ms[|ms| - 1];
      StatusesFollowMatches(f, offset, init);
      var prev := FilterMap(f, init);
      assert FilterMap(f, ms) == prev + (if f(m).Some? then [f(m).value] else []);
      if |prev| > 0 {
        assert init[|init| - 1] == ms[|ms| - 2];
      }
    }
  }

  /** `q` is a line start of `doc` at which `pattern` matches. */
  predicate ScanHit(pattern: Pattern, doc: string, q: int) {
    0 <= q < |doc| && IsLineStart(doc, q) && MatchesAt(pattern, doc, q)
  }

  /** Every status sits at a line start of `doc` where `pattern` matches. */
  predicate AllScanHits(pattern: Pattern, doc: string, offset: int, r: seq<WorkflowStatus>) {
    forall k :: 0 <= k < |r| ==> ScanHit(pattern, doc, r[k].from - offset)
  }

  /** The matches start at strictly increasing positions. */
  predicate IndexIncreasing(ms: seq<RegexMatch>) {
    forall k :: 0 <= k < |ms| - 1 ==> ms[k].index < ms[k + 1].index
  }

  /** The matches of a scan come in strictly increasing order. */
  lemma MatchAllIncreasing(pattern: Pattern, doc: string)
    ensures IndexIncreasing(MatchAll(pattern, doc, 0, 0))
  {
    var ms := MatchAll(pattern, doc, 0, 0);
    MatchAllDisjoint(pattern, doc, 0, 0);
    forall k | 0 <= k < |ms| - 1 ensures ms[k].index < ms[k + 1].index {
      MatchAllElement(pattern, doc, k);
    }
  }

  /**
   * Scanning with any pattern and any status function that places each
   * status at its match: the statuses come in strictly increasing order.
   */
  lemma ScanOrdered(pattern: Pattern, f: RegexMatch -> Option<WorkflowStatus>, doc: string, offset: int)
    requires forall m :: f(m).Some? ==> f(m).value.from == offset + m.index
    ensures Increasing(FilterMap(f, MatchAll(pattern, doc, 0, 0)))
  {
    MatchAllIncreasing(pattern, doc);
    StatusesFollowMatches(f, offset, MatchAll(pattern, doc, 0, 0));
  }

  /**
   * Scanning with any pattern and any status function that places each
   * status at its match: each status sits at a line start where the pattern
   * matches.
   */
  lemma ScanHits(pattern: Pattern, f: RegexMatch -> Option<WorkflowStatus>, doc: string, offset: int)
    requires forall m :: f(m).Some? ==> f(m).value.from == offset + m.index
    ensures AllScanHits(pattern, doc, offset, FilterMap(f, MatchAll(pattern, doc, 0, 0)))
  {
    var ms := MatchAll(pattern, doc, 0, 0);
    StatusesAtMatches(f, offset, ms);
    var r := FilterMap(f, ms);
    forall k | 0 <= k < |r| ensures ScanHit(pattern, doc, r[k].from - offset) {
      assert AtSomeMatch(r[k], offset, ms);
      var j :| 0 <= j < |ms| && r[k].from == offset + ms[j].index;
      MatchAllElement(pattern, doc, j);
    }
  }

  /** Each status a match yields starts at the match. */
  lemma MatchStatusAtMatch(w: Workflow, offset: int)
    ensures var f := MatchStatus(w, offset);
      forall m :: f(m).Some? ==> f(m).value.from == offset + m.index
  {
    var f := MatchStatus(w, offset);
    forall m | f(m).Some? ensures f(m).value.from == offset + m.index {
      StatusStartsAtOffset(w, m.text, offset + m.index);
    }
  }

  /** `getAllWorkflowStatuses` reports statuses in strictly increasing document order. */
  lemma AllStatusesIncreasing(w: Workflow, doc: string, offset: int)
    ensures Increasing(AllStatuses(w, doc, offset))
  {
    MatchStatusAtMatch(w, offset);
    ScanOrdered(TaskPattern(Keys(w)), MatchStatus(w, offset), doc, offset);
  }

  /** Each status `getAllWorkflowStatuses` reports sits at a line start where the task pattern matches. */
  lemma AllStatusesAtTaskLines(w: Workflow, doc: string, offset: int)
    ensures AllScanHits(TaskPattern(Keys(w)), doc, offset, AllStatuses(w, doc, offset))
  {
    var pattern, f := TaskPattern(Keys(w)), MatchStatus(w, offset);
    MatchStatusAtMatch(w, offset);
    ScanHits(pattern, f, doc, offset);
    assert AllStatuses(w, doc, offset) == FilterMap(f, MatchAll(pattern, doc, 0, 0));
  }

  /** A key that fits in a prefix of the text is found there just as in the whole text. */
  lemma {:induction false} StateThenSpacePrefix(keys: seq<string>, s: string, n: nat, p: nat)
    requires p <= n <= |s|
    ensures var r := StateThenSpace(keys, s, p);
      && (r.None? ==> StateThenSpace(keys, s[..n], p).None?)
      && (r.Some? && r.value.1 <= n ==> StateThenSpace(keys, s[..n], p) == r)
    decreases |keys|
  {
    if keys != [] {
      var k := keys[0];
      var t := s[..n];
      if p + |k| < |t| {
        assert t[p..p + |k|] == s[p..p + |k|];
        assert t[p + |k|] == s[p + |k|];
      }
      StateThenSpacePrefix(keys[1..], s, n, p);
    }
  }

  /** Matching the pattern again on the text it matched gives the same match. */
  lemma MatchTaskPrefix(keys: seq<string>, s: string)
    requires MatchTask(keys, s).Some?
    ensures MatchTask(keys, s[..MatchTask(keys, s).value.length]) == MatchTask(keys, s)
  {
    var m := MatchTask(keys, s).value;
    var t := s[..m.length];
    var i := SkipBlanks(s, 0);
    assert i == SkipBlanks(t, 0) by {
      SkipBlanksPrefix(s, m.length, 0);
    }
    var p := i + 2;
    assert t[i] == s[i] && t[i + 1] == s[i + 1];
    if CheckboxAt(s, p) && p + 4 <= m.length {
      StateThenSpacePrefix(keys, s, m.length, p + 4);
    }
    if CheckboxAt(t, p) {
      assert CheckboxAt(s, p);
    }
    StateThenSpacePrefix(keys, s, m.length, p);
  }

  lemma {:induction false} SkipBlanksPrefix(s: string, n: nat, i: nat)
    requires i <= n <= |s| && SkipBlanks(s, i) < n
    ensures SkipBlanks(s[..n], i) == SkipBlanks(s, i)
    decreases n - i
  {
    if IsBlank(s[i]) {
      SkipBlanksPrefix(s, n, i + 1);
    }
  }

  /** The text of a match is a task line: it has a status. */
  lemma MatchedTextStatus(w: Workflow, s: string, offset: int)
    requires MatchTask(Keys(w), s).Some?
    ensures StatusOf(w, s[..MatchTask(Keys(w), s).value.length], offset).Some?
  {
    var m := MatchTask(Keys(w), s).value;
    var t := s[..m.length];
    MatchTaskPrefix(Keys(w), s);
    MatchTaskShape(Keys(w), t);
    assert t[m.indent] == t[m.indent..m.indent + 2][0];
    NotLogbookLine(t, m.indent);
  }

  /** A line that starts with a char other than `-`, a space or a tab is not matched at its start. */
  lemma FenceSkipped(w: Workflow, fence: string, rest: string)
    requires 0 < |fence| && NoTerminators(fence) && fence[0] != '-' && !IsBlank(fence[0])
    ensures var doc := fence + "\n" + rest;
      MatchAll(TaskPattern(Keys(w)), doc, 0, 0) == MatchAll(TaskPattern(Keys(w)), doc, |fence| + 1, 0)
  {
    var doc := fence + "\n" + rest;
    var pattern := TaskPattern(Keys(w));
    forall k | 0 <= k < |fence| + 1 ensures !(IsLineStart(doc, k) && MatchesAt(pattern, doc, k)) {
      if k == 0 {
        assert doc[0] == fence[0];
        assert SkipBlanks(doc, 0) == 0;
        assert doc[0..] == doc;
      } else {
        assert doc[k - 1] == fence[k - 1];
      }
    }
    MatchAllSkip(pattern, doc, 0, |fence| + 1, 0);
  }

  /** After a fence line, the first match is the task line that follows it. */
  lemma FenceFirstMatch(w: Workflow, fence: string, rest: string)
    requires 0 < |fence| && NoTerminators(fence) && fence[0] != '-' && !IsBlank(fence[0])
    requires MatchTask(Keys(w), rest).Some?
    ensures var ms := MatchAll(TaskPattern(Keys(w)), fence + "\n" + rest, 0, 0);
      |ms| > 0 && ms[0] == RegexMatch(|fence| + 1, rest[..MatchTask(Keys(w), rest).value.length])
  {
    var doc := fence + "\n" + rest;
    var pattern := TaskPattern(Keys(w));
    var q := |fence| + 1;
    FenceSkipped(w, fence, rest);
    assert doc[q..] == rest;
    var n := MatchTask(Keys(w), rest).value.length;
    assert MatchesAt(pattern, doc, q);
    MatchAllHit(pattern, doc, q, 0);
    assert doc[q..q + n] == rest[..n];
  }

  /** When the first match has a status, that status comes first. */
  lemma FirstStatusAt(w: Workflow, doc: string, offset: int, q: nat, text: string)
    requires var ms := MatchAll(TaskPattern(Keys(w)), doc, 0, 0); |ms| > 0 && ms[0] == RegexMatch(q, text)
    requires StatusOf(w, text, offset + q).Some?
    ensures |AllStatuses(w, doc, offset)| > 0 && AllStatuses(w, doc, offset)[0].from == offset + q
  {
    var status := StatusOf(w, text, offset + q);
    StatusStartsAtOffset(w, text, offset + q);
    MatchStatusApply(w, offset, RegexMatch(q, text));
    FilterMapFirst(MatchStatus(w, offset), MatchAll(TaskPattern(Keys(w)), doc, 0, 0), RegexMatch(q, text), status.value);
  }

  /**
   * A fence line such as three backticks does not hide the task on the next
   * line: the first status reported is that task's.
   */
  lemma FenceNotSuppressed(w: Workflow, fence: string, rest: string, offset: int)
    requires 0 < |fence| && NoTerminators(fence) && fence[0] != '-' && !IsBlank(fence[0])
    requires MatchTask(Keys(w), rest).Some?
    ensures var r := AllStatuses(w, fence + "\n" + rest, offset);
      |r| > 0 && r[0].from == offset + |fence| + 1
  {
    var text := rest[..MatchTask(Keys(w), rest).value.length];
    FenceFirstMatch(w, fence, rest);
    MatchedTextStatus(w, rest, offset + |fence| + 1);
    FirstStatusAt(w, fence + "\n" + rest, offset, |fence| + 1, text);
  }

  /** The task parser: a workflow table that `setTaskWorkflow` can replace. */
  class TaskParser {
    var workflow: Workflow

    constructor()
      ensures workflow == DefaultWorkflow()
    {
      workflow := DefaultWorkflow();
    }

    method SetTaskWorkflow(taskWorkflow: Workflow)
      modifies this
      ensures workflow == taskWorkflow
    {
      workflow := taskWorkflow;
    }

    /**
     * `getWorkflowStatus`: builds the status record from the match and then
     * overwrites its ranges as the checkbox and the state are found.
     */
    method GetWorkflowStatus(line: string, offset: int) returns (r: Option<WorkflowStatus>)
      ensures r == StatusOf(workflow, line, offset)
    {
      if IsLogbookLine(line) {
        return None;
      }
      var found := MatchTask(Keys(workflow), line);
      if found.None? {
        return None;
      }
      var m := found.value;
      assert StatusOf(workflow, line, offset) == Some(BuildStatus(workflow, m, offset));
      var result := WorkflowStatus(
        offset, offset + m.length, m.indent, None, Range(offset, offset), None, None, None, None, m.indent);
      var listFrom := offset + m.indent;
      result := result.(listRange := Some(Range(listFrom, listFrom + 2)),
                        currentStateRange := Range(listFrom + 2, listFrom + 2));
      if m.checkbox.Some? {
        var box := Range(listFrom + 3, listFrom + 4);
        result := result.(checkboxValue := Some([m.checkbox.value]), checkboxValueRange := Some(box));
        result := result.(currentStateRange := Range(box.to + 2, box.to + 2));
      }
      if m.state.Some? && m.state.value != "" {
        var stateFrom := listFrom + 2 + (if m.checkbox.Some? then 4 else 0);
        var state := GetWorkflowState(workflow, m.state.value);
        result := result.(currentState := m.state, workflow := state,
                          currentStateRange := Range(stateFrom, stateFrom + |m.state.value|));
      }
      assert result == BuildStatus(workflow, m, offset);
      return Some(result);
    }

    /** `getAllWorkflowStatuses`: the status of every match of the task pattern, in order. */
    method GetAllWorkflowStatuses(document: string, offset: int) returns (result: seq<WorkflowStatus>)
      ensures result == AllStatuses(workflow, document, offset)
    {
      var matches := MatchAll(TaskPattern(Keys(workflow)), document, 0, 0);
      result := CollectStatuses(matches, offset);
    }

    /** The loop of `getAllWorkflowStatuses`: keeps the status of each match that has one. */
    method CollectStatuses(matches: seq<RegexMatch>, offset: int) returns (result: seq<WorkflowStatus>)
      ensures result == FilterMap(MatchStatus(workflow, offset), matches)
    {
      ghost var f := MatchStatus(workflow, offset);
      result := [];
      for i := 0 to |matches|
        invariant result == FilterMap(f, matches[..i])
      {
        var found := matches[i];
        var status := GetWorkflowStatus(found.text, offset + found.index);
        MatchStatusApply(workflow, offset, found);
        assert status == f(found);
        FilterMapStep(f, matches, i);
        if status.Some? {
          result := result + [status.value];
        }
      }
      assert matches[..|matches|] == matches;
    }
  }
}
