/**
 * The row loop of handleExcelSubmit: for every data row, each non-empty cell
 * of columns 1 to 14 becomes one call on the store, in column order; the
 * first failure outside the source column is recorded and ends the row,
 * while a failed source line is recorded and the next line still runs.
 *
 * The store is an oracle: `respond` tells, from the calls already made, what
 * a call answers, and the Store object keeps the trace of calls. The
 * specification of a row is a plan (the actions its cells ask for, in
 * column order) run against that oracle.
 */
module Apply {
  import opened Wrappers
  import opened Text
  import Strconv
  import Check
  import opened Excel

  /** One mutation of the metadata store, addressed by project and item name. */
  datatype Call =
    | SetShotType(project: string, name: string, shottype: string)
    | SetNote(project: string, name: string, userID: string, note: string, overwrite: bool)
    | AddComment(project: string, name: string, userID: string, date: string, text: string)
    | AddSource(project: string, name: string, userID: string, title: string, path: string)
    | SetDeadline3D(project: string, name: string, date: string)
    | SetDeadline2D(project: string, name: string, date: string)
    | SetFindate(project: string, name: string, date: string)
    | SetFinver(project: string, name: string, finver: string)
    | SetTags(project: string, name: string, tags: seq<string>)
    | SetRnum(project: string, name: string, rnum: string)
    | SetFrame(project: string, name: string, key: string, frame: int)
    | SetJustTimecodeIn(project: string, name: string, timecode: string)

  /** An entry of the result page: the item name of the row and the error text. */
  datatype ErrorItem = ErrorItem(name: string, error: string)

  /** The store's answer to a call (None for success), given the calls made before it. */
  type Responder = (seq<Call>, Call) -> Option<string>

  /** The date normaliser ditime.ToFullTime: (a number, text) to a date or an error. */
  type DateParser = (int, string) -> Result<string, string>

  /** The number the handler passes first to ditime.ToFullTime for every date cell. */
  const DateArg: int := 19

  /** What the handler knows besides the sheet: form values, the user, the clock, the date parser. */
  datatype Env = Env(project: string, userID: string, now: string, overwrite: bool, toFullTime: DateParser)

  // ---------------------------------------------------------------------
  // The plan of a row
  // ---------------------------------------------------------------------

  /** One step a cell asks for. */
  datatype Action =
    | Mutate(col: nat, call: Call)       // a store call whose failure ends the row
    | ParseFail(col: nat, error: string) // a cell that does not parse: recorded, ends the row
    | Source(call: Call)                 // one source line: a failure is recorded, the row goes on
    | SourcePanic                        // a source line without ':' (source[1] is out of range)

  /** The column an action comes from; source lines all come from column 4. */
  function Col(a: Action): nat
  {
    match a
    case Mutate(c, _) => c
    case ParseFail(c, _) => c
    case _ => 4
  }

  /** The calls an action makes on the store. */
  function CallOf(a: Action): seq<Call>
  {
    match a
    case Mutate(_, call) => [call]
    case Source(call) => [call]
    case _ => []
  }

  function CallsOf(actions: seq<Action>): seq<Call>
    decreases |actions|
  {
    if actions == [] then [] else CallOf(actions[0]) + CallsOf(actions[1..])
  }

  function SourceCount(actions: seq<Action>): nat
    decreases |actions|
  {
    if actions == [] then 0 else (if actions[0].Source? then 1 else 0) + SourceCount(actions[1..])
  }

  /** The setter of a date column: 3D deadline, 2D deadline or finish date. */
  function DateSetter(env: Env, name: string, col: nat, date: string): Call
  {
    if col == 5 then SetDeadline3D(env.project, name, date)
    else if col == 6 then SetDeadline2D(env.project, name, date)
    else SetFindate(env.project, name, date)
  }

  /** A date cell: parsed by the date normaliser, then handed to its setter. */
  function DateAction(env: Env, name: string, col: nat, cell: string): (a: Action)
    ensures Col(a) == col
    ensures a.ParseFail? <==> env.toFullTime(DateArg, cell).Err?
    ensures a.Mutate? ==> a.call == DateSetter(env, name, col, env.toFullTime(DateArg, cell).value)
  {
    match env.toFullTime(DateArg, cell)
    case Err(e) => ParseFail(col, e)
    case Ok(date) => Mutate(col, DateSetter(env, name, col, date))
  }

  /** A handle cell: parsed by strconv.Atoi, then written with SetFrame under `key`. */
  function FrameAction(env: Env, name: string, col: nat, key: string, cell: string): (a: Action)
    ensures Col(a) == col
    ensures a.ParseFail? <==> Strconv.Atoi(cell).Err?
    ensures a.Mutate? ==> a.call == SetFrame(env.project, name, key, Strconv.Atoi(cell).value)
  {
    match Strconv.Atoi(cell)
    case Err(e) => ParseFail(col, e)
    case Ok(num) => Mutate(col, SetFrame(env.project, name, key, num))
  }

  /** The action of a non-empty cell outside the source column. */
  function FieldAction(env: Env, name: string, col: nat, cell: string): (a: Action)
    requires 1 <= col <= 14 && col != 4
    ensures Col(a) == col
    ensures a.Mutate? || a.ParseFail?
    ensures a.Mutate? ==> a.call.project == env.project && a.call.name == name
  {
    if col == 1 then Mutate(1, SetShotType(env.project, name, cell))
    else if col == 2 then Mutate(2, SetNote(env.project, name, env.userID, cell, env.overwrite))
    else if col == 3 then Mutate(3, AddComment(env.project, name, env.userID, env.now, cell))
    else if 5 <= col <= 7 then DateAction(env, name, col, cell)
    else if col == 8 then Mutate(8, SetFinver(env.project, name, cell))
    else if col == 9 then Mutate(9, SetTags(env.project, name, Split(cell, ',')))
    else if col == 10 then Mutate(10, SetRnum(env.project, name, cell))
    else if col == 11 then FrameAction(env, name, 11, "handlein", cell)
    else if col == 12 then FrameAction(env, name, 12, "handleout", cell)
    // column 14 (JUST timecode OUT) goes through the setter of column 13, as in the handler
    else Mutate(col, SetJustTimecodeIn(env.project, name, cell))
  }

  /** One line of the source cell: title before the first ':', path up to the second. */
  function SourceAction(env: Env, name: string, text: string): Action
  {
    var source := Split(text, ':');
    if |source| < 2 then SourcePanic
    else Source(AddSource(env.project, name, env.userID, source[0], source[1]))
  }

  /** The source cell: one action per '\n'-separated line. */
  function SourceActions(env: Env, name: string, cell: string): (actions: seq<Action>)
    ensures |actions| == |Split(cell, '\n')|
    ensures forall k :: 0 <= k < |actions| ==> Col(actions[k]) == 4
  {
    var lines := Split(cell, '\n');
    seq(|lines|, k requires 0 <= k < |lines| => SourceAction(env, name, lines[k]))
  }

  /** The actions of one column of a row: none for an empty cell. */
  function ColumnActions(env: Env, line: seq<string>, col: nat): (actions: seq<Action>)
    requires |line| == CellCount && 1 <= col <= 14
    ensures line[col] == "" ==> actions == []
    ensures line[col] != "" ==> |actions| >= 1
    ensures line[col] != "" && col != 4 ==> |actions| == 1
    ensures forall k :: 0 <= k < |actions| ==> Col(actions[k]) == col
  {
    if line[col] == "" then []
    else if col == 4 then SourceActions(env, line[0], line[col])
    else [FieldAction(env, line[0], col, line[col])]
  }

  /** The actions of columns `col` to 14, in column order. */
  function PlanFrom(env: Env, line: seq<string>, col: nat): seq<Action>
    requires |line| == CellCount && 1 <= col <= CellCount
    decreases CellCount - col
  {
    if col == CellCount then []
    else ColumnActions(env, line, col) + PlanFrom(env, line, col + 1)
  }

  /** Everything a data row asks of the store, in the order the handler attempts it. */
  function Plan(env: Env, line: seq<string>): seq<Action>
    requires |line| == CellCount
  {
    PlanFrom(env, line, 1)
  }

  // ---------------------------------------------------------------------
  // Running a plan against the store
  // ---------------------------------------------------------------------

  /** The observable state of a run: the calls made so far and the error items so far. */
  datatype Batch = Batch(trace: seq<Call>, errors: seq<ErrorItem>)

  /** How a row ended: all actions ran, a field failed (the rest is skipped), or a panic. */
  datatype Stop = Ran | Failed | Panic

  datatype RowEnd = RowEnd(batch: Batch, stop: Stop)

  function Exec(respond: Responder, name: string, actions: seq<Action>, b: Batch): RowEnd
    decreases |actions|
  {
    if actions == [] then RowEnd(b, Ran)
    else match actions[0]
      case Mutate(_, call) =>
        var err := respond(b.trace, call);
        var next := b.(trace := b.trace + [call]);
        if err.Some? then RowEnd(next.(errors := b.errors + [ErrorItem(name, err.value)]), Failed)
        else Exec(respond, name, actions[1..], next)
      case ParseFail(_, e) =>
        RowEnd(b.(errors := b.errors + [ErrorItem(name, e)]), Failed)
      case Source(call) =>
        var err := respond(b.trace, call);
        var errors := if err.Some? then b.errors + [ErrorItem(name, err.value)] else b.errors;
        Exec(respond, name, actions[1..], Batch(b.trace + [call], errors))
      case SourcePanic =>
        RowEnd(b, Panic)
  }

  /** The number of actions Exec carries out (a failing one included, a panicking one not). */
  function Steps(respond: Responder, name: string, actions: seq<Action>, b: Batch): nat
    decreases |actions|
  {
    if actions == [] then 0
    else match actions[0]
      case Mutate(_, call) =>
        if respond(b.trace, call).Some? then 1
        else 1 + Steps(respond, name, actions[1..], b.(trace := b.trace + [call]))
      case ParseFail(_, _) => 1
      case Source(call) =>
        var err := respond(b.trace, call);
        var errors := if err.Some? then b.errors + [ErrorItem(name, err.value)] else b.errors;
        1 + Steps(respond, name, actions[1..], Batch(b.trace + [call], errors))
      case SourcePanic => 0
  }

  /** The error item an answer of the store records: one for a failure, none for success. */
  function ItemOf(name: string, answer: Option<string>): seq<ErrorItem>
  {
    if answer.Some? then [ErrorItem(name, answer.value)] else []
  }

  /** The error items one action records when carried out after the calls `t`. */
  function ActionItems(respond: Responder, name: string, a: Action, t: seq<Call>): seq<ErrorItem>
  {
    match a
    case Mutate(_, call) => ItemOf(name, respond(t, call))
    case Source(call) => ItemOf(name, respond(t, call))
    case ParseFail(_, e) => [ErrorItem(name, e)]
    case SourcePanic => []
  }

  /** The error items of a block of actions carried out one after the other from the calls `t`. */
  function ItemsOf(respond: Responder, name: string, actions: seq<Action>, t: seq<Call>): seq<ErrorItem>
    decreases |actions|
  {
    if actions == [] then []
    else ActionItems(respond, name, actions[0], t) + ItemsOf(respond, name, actions[1..], t + CallOf(actions[0]))
  }

  // ---------------------------------------------------------------------
  // A batch of rows
  // ---------------------------------------------------------------------

  datatype Run = Run(status: Status, batch: Batch)

  /** What one data row does to the batch: the row loop's body as a function. */
  type RowRunner = (seq<string>, Batch) -> RowEnd

  /** The body of handleExcelSubmit's row loop: the plan of the row run against the store. */
  function SubmitRow(respond: Responder, env: Env): RowRunner
  {
    (line: seq<string>, b: Batch) =>
      if |line| == CellCount then Exec(respond, line[0], Plan(env, line), b) else RowEnd(b, Ran)
  }

  /** The row loop from row `i` on, with `run` as the body for a data row. */
  function RunRows(run: RowRunner, rows: seq<seq<string>>, i: nat, b: Batch): Run
    requires i <= |rows|
    decreases |rows| - i
  {
    if i == |rows| then Run(Completed, b)
    else
      match Classify(rows[i])
      case Malformed => Run(BadArity(i), b)
      case HeaderRow => RunRows(run, rows, i + 1, b)
      case DataRow =>
        var r := run(rows[i], b);
        if r.stop == Panic then Run(Panicked(i), r.batch)
        else RunRows(run, rows, i + 1, r.batch)
  }

  /** The whole submit: an empty sheet is refused before any row is looked at. */
  function ApplyExcel(respond: Responder, env: Env, rows: seq<seq<string>>, b: Batch): Run
  {
    if rows == [] then Run(EmptySheet, b) else RunRows(SubmitRow(respond, env), rows, 0, b)
  }

  /** A run of a later block of rows, with the row numbers of its status moved down by `d`. */
  function Shift(r: Run, d: nat): Run
  {
    match r.status
    case BadArity(row) => Run(BadArity(row + d), r.batch)
    case Panicked(row) => Run(Panicked(row + d), r.batch)
    case _ => r
  }

  // ---------------------------------------------------------------------
  // Facts about plans and their runs
  // ---------------------------------------------------------------------

  /** Running two blocks of actions is running the first, then (if it ran to its end) the second. */
  lemma {:induction false} ExecAppend(respond: Responder, name: string, a: seq<Action>, c: seq<Action>, b: Batch)
    ensures Exec(respond, name, a + c, b) ==
      (var r := Exec(respond, name, a, b); if r.stop == Ran then Exec(respond, name, c, r.batch) else r)
    decreases |a|
  {
    if a == [] {
      assert a + c == c;
    } else {
      assert (a + c)[0] == a[0] && (a + c)[1..] == a[1..] + c;
      match a[0]
      case Mutate(_, call) =>
        if respond(b.trace, call).None? {
          ExecAppend(respond, name, a[1..], c, b.(trace := b.trace + [call]));
        }
      case Source(call) =>
        var err := respond(b.trace, call);
        var errors := if err.Some? then b.errors + [ErrorItem(name, err.value)] else b.errors;
        ExecAppend(respond, name, a[1..], c, Batch(b.trace + [call], errors));
      case ParseFail(_, _) =>
      case SourcePanic =>
    }
  }

  lemma PrefixSplit(actions: seq<Action>, n: nat)
    requires 1 <= n <= |actions|
    ensures CallsOf(actions[..n]) == CallOf(actions[0]) + CallsOf(actions[1..][..n - 1])
    ensures SourceCount(actions[..n]) == (if actions[0].Source? then 1 else 0) + SourceCount(actions[1..][..n - 1])
  {
    assert actions[..n][0] == actions[0];
    assert actions[..n][1..] == actions[1..][..n - 1];
  }

  /** The store sees exactly the calls of the actions carried out, in plan order. */
  lemma {:induction false} ExecTrace(respond: Responder, name: string, actions: seq<Action>, b: Batch)
    ensures var n := Steps(respond, name, actions, b);
      n <= |actions| &&
      Exec(respond, name, actions, b).batch.trace == b.trace + CallsOf(actions[..n])
    decreases |actions|
  {
    if actions != [] {
      var n := Steps(respond, name, actions, b);
      match actions[0]
      case Mutate(_, call) =>
        if respond(b.trace, call).None? {
          ExecTrace(respond, name, actions[1..], b.(trace := b.trace + [call]));
        }
        PrefixSplit(actions, n);
      case Source(call) =>
        var err := respond(b.trace, call);
        var errors := if err.Some? then b.errors + [ErrorItem(name, err.value)] else b.errors;
        ExecTrace(respond, name, actions[1..], Batch(b.trace + [call], errors));
        PrefixSplit(actions, n);
      case ParseFail(_, _) =>
        PrefixSplit(actions, n);
      case SourcePanic =>
        assert actions[..n] == [];
    }
  }

  lemma ItemsPrefixSplit(respond: Responder, name: string, actions: seq<Action>, n: nat, t: seq<Call>)
    requires 1 <= n <= |actions|
    ensures ItemsOf(respond, name, actions[..n], t) ==
      ActionItems(respond, name, actions[0], t) + ItemsOf(respond, name, actions[1..][..n - 1], t + CallOf(actions[0]))
  {
    assert actions[..n][0] == actions[0];
    assert actions[..n][1..] == actions[1..][..n - 1];
  }

  /** What one action does to the batch, and whether the row goes on after it. */
  function Step(respond: Responder, name: string, a: Action, b: Batch): RowEnd
  {
    match a
    case Mutate(_, call) =>
      var err := respond(b.trace, call);
      RowEnd(Batch(b.trace + [call], b.errors + ItemOf(name, err)), if err.Some? then Failed else Ran)
    case ParseFail(_, e) => RowEnd(b.(errors := b.errors + [ErrorItem(name, e)]), Failed)
    case Source(call) => RowEnd(Batch(b.trace + [call], b.errors + ItemOf(name, respond(b.trace, call))), Ran)
    case SourcePanic => RowEnd(b, Panic)
  }

  /** A non-empty block runs its first action, then (if the row goes on) the rest. */
  lemma ExecStep(respond: Responder, name: string, actions: seq<Action>, b: Batch)
    requires actions != []
    ensures var s := Step(respond, name, actions[0], b);
      Exec(respond, name, actions, b) == (if s.stop == Ran then Exec(respond, name, actions[1..], s.batch) else s) &&
      Steps(respond, name, actions, b) ==
        (if s.stop == Panic then 0 else if s.stop == Failed then 1 else 1 + Steps(respond, name, actions[1..], s.batch)) &&
      (s.stop != Panic ==>
        s.batch == Batch(b.trace + CallOf(actions[0]), b.errors + ActionItems(respond, name, actions[0], b.trace))) &&
      (s.stop == Failed ==> |ActionItems(respond, name, actions[0], b.trace)| == 1)
  {
    assert b.errors + [] == b.errors;
  }

  /**
   * The error items a row adds are exactly those of the actions carried out:
   * each failed store call (field or source line) adds the store's error
   * text, each cell that does not parse adds the parser's error, and
   * everything that succeeds adds nothing.
   */
  lemma {:induction false} ExecErrors(respond: Responder, name: string, actions: seq<Action>, b: Batch)
    ensures var n := Steps(respond, name, actions, b);
      n <= |actions| &&
      Exec(respond, name, actions, b).batch.errors == b.errors + ItemsOf(respond, name, actions[..n], b.trace)
    decreases |actions|
  {
    var n := Steps(respond, name, actions, b);
    if actions == [] || n == 0 {
      if actions != [] {
        ExecStep(respond, name, actions, b);
      }
      assert actions[..n] == [];
      assert b.errors + [] == b.errors;
    } else {
      var s := Step(respond, name, actions[0], b);
      ExecStep(respond, name, actions, b);
      if s.stop == Ran {
        ExecErrors(respond, name, actions[1..], s.batch);
      }
      ItemsPrefixSplit(respond, name, actions, n, b.trace);
      var head := ActionItems(respond, name, actions[0], b.trace);
      if s.stop == Ran {
        var rest := ItemsOf(respond, name, actions[1..][..n - 1], s.batch.trace);
        assert b.errors + head + rest == b.errors + (head + rest);
      } else {
        assert actions[1..][..n - 1] == [];
        assert head + [] == head;
      }
    }
  }

  /**
   * When a field fails, the last error item is that field's own error: the
   * store's answer to the failing call, or the parser's error for the cell.
   */
  lemma {:induction false} ExecFailure(respond: Responder, name: string, actions: seq<Action>, b: Batch)
    ensures var r := Exec(respond, name, actions, b);
      var n := Steps(respond, name, actions, b);
      r.stop == Failed ==>
        0 < n <= |actions| && |r.batch.errors| > 0 &&
        ActionItems(respond, name, actions[n - 1], b.trace + CallsOf(actions[..n - 1])) ==
          [r.batch.errors[|r.batch.errors| - 1]]
    decreases |actions|
  {
    if actions != [] && Exec(respond, name, actions, b).stop == Failed {
      var n := Steps(respond, name, actions, b);
      var s := Step(respond, name, actions[0], b);
      ExecStep(respond, name, actions, b);
      if s.stop == Ran {
        ExecFailure(respond, name, actions[1..], s.batch);
        PrefixSplit(actions, n - 1);
        assert b.trace + CallsOf(actions[..n - 1]) == s.batch.trace + CallsOf(actions[1..][..n - 2]);
        assert actions[1..][n - 2] == actions[n - 1];
      } else {
        assert n == 1 && actions[..0] == [];
        assert b.trace + CallsOf(actions[..0]) == b.trace;
      }
    }
  }

  /** Error items are only appended, and every item a row appends carries the row's name. */
  lemma {:induction false} ExecErrorsKept(respond: Responder, name: string, actions: seq<Action>, b: Batch)
    ensures var r := Exec(respond, name, actions, b);
      |b.errors| <= |r.batch.errors| && r.batch.errors[..|b.errors|] == b.errors &&
      forall k :: |b.errors| <= k < |r.batch.errors| ==> r.batch.errors[k].name == name
    decreases |actions|
  {
    if actions != [] {
      match actions[0]
      case Mutate(_, call) =>
        if respond(b.trace, call).None? {
          ExecErrorsKept(respond, name, actions[1..], b.(trace := b.trace + [call]));
        }
      case Source(call) =>
        var err := respond(b.trace, call);
        var errors := if err.Some? then b.errors + [ErrorItem(name, err.value)] else b.errors;
        var next := Batch(b.trace + [call], errors);
        ExecErrorsKept(respond, name, actions[1..], next);
        var r := Exec(respond, name, actions[1..], next);
        assert r.batch.errors[..|b.errors|] == errors[..|b.errors|];
      case ParseFail(_, _) =>
      case SourcePanic =>
    }
  }

  /** A row appends at most one error item per source line carried out, plus one for a failed field. */
  lemma {:induction false} ExecErrorsCount(respond: Responder, name: string, actions: seq<Action>, b: Batch)
    ensures var r := Exec(respond, name, actions, b);
      var n := Steps(respond, name, actions, b);
      n <= |actions| && |b.errors| <= |r.batch.errors| &&
      |r.batch.errors| - |b.errors| <= SourceCount(actions[..n]) + (if r.stop == Failed then 1 else 0)
    decreases |actions|
  {
    if actions != [] {
      var n := Steps(respond, name, actions, b);
      match actions[0]
      case Mutate(_, call) =>
        if respond(b.trace, call).None? {
          ExecErrorsCount(respond, name, actions[1..], b.(trace := b.trace + [call]));
        }
        PrefixSplit(actions, n);
      case Source(call) =>
        var err := respond(b.trace, call);
        var errors := if err.Some? then b.errors + [ErrorItem(name, err.value)] else b.errors;
        ExecErrorsCount(respond, name, actions[1..], Batch(b.trace + [call], errors));
        PrefixSplit(actions, n);
      case ParseFail(_, _) =>
        PrefixSplit(actions, n);
      case SourcePanic =>
    }
  }

  /**
   * A row runs all its actions unless a field fails, in which case the failing
   * action is the last one carried out, is not a source line, and its error
   * item ends the list; or unless a source line without ':' panics.
   */
  lemma {:induction false} ExecStop(respond: Responder, name: string, actions: seq<Action>, b: Batch)
    ensures var r := Exec(respond, name, actions, b);
      var n := Steps(respond, name, actions, b);
      (r.stop == Ran ==> n == |actions| && SourceCount(actions) >= |r.batch.errors| - |b.errors|) &&
      (r.stop == Panic ==> n < |actions| && actions[n] == SourcePanic) &&
      (r.stop == Failed ==>
        (0 < n <= |actions| && !actions[n - 1].Source? &&
         |r.batch.errors| > |b.errors| && r.batch.errors[|r.batch.errors| - 1].name == name))
    decreases |actions|
  {
    ExecErrorsKept(respond, name, actions, b);
    ExecErrorsCount(respond, name, actions, b);
    if actions != [] {
      match actions[0]
      case Mutate(_, call) =>
        if respond(b.trace, call).None? {
          ExecStop(respond, name, actions[1..], b.(trace := b.trace + [call]));
        }
      case Source(call) =>
        var err := respond(b.trace, call);
        var errors := if err.Some? then b.errors + [ErrorItem(name, err.value)] else b.errors;
        ExecStop(respond, name, actions[1..], Batch(b.trace + [call], errors));
      case ParseFail(_, _) =>
      case SourcePanic =>
    }
    var r := Exec(respond, name, actions, b);
    if r.stop == Ran {
      assert actions[..|actions|] == actions;
    }
  }

  /** Actions from non-empty cells of columns `lo` to 14, in non-decreasing column order. */
  predicate InColumnOrder(p: seq<Action>, line: seq<string>, lo: nat)
    requires |line| == CellCount
  {
    (forall k :: 0 <= k < |p| ==> lo <= Col(p[k]) <= 14 && line[Col(p[k])] != "") &&
    (forall j, k :: 0 <= j < k < |p| ==> Col(p[j]) <= Col(p[k]))
  }

  lemma InColumnOrderConcat(c: seq<Action>, rest: seq<Action>, line: seq<string>, col: nat)
    requires |line| == CellCount && 1 <= col <= 14
    requires forall k :: 0 <= k < |c| ==> Col(c[k]) == col
    requires c != [] ==> line[col] != ""
    requires InColumnOrder(rest, line, col + 1)
    ensures InColumnOrder(c + rest, line, col)
  {
    var p := c + rest;
    assert forall k :: 0 <= k < |p| ==> p[k] == if k < |c| then c[k] else rest[k - |c|];
  }

  lemma {:induction false} PlanFromOrdered(env: Env, line: seq<string>, col: nat)
    requires |line| == CellCount && 1 <= col <= CellCount
    ensures InColumnOrder(PlanFrom(env, line, col), line, col)
    decreases CellCount - col
  {
    if col < CellCount {
      PlanFromOrdered(env, line, col + 1);
      var c := ColumnActions(env, line, col);
      var rest := PlanFrom(env, line, col + 1);
      assert PlanFrom(env, line, col) == c + rest;
      InColumnOrderConcat(c, rest, line, col);
    }
  }

  /**
   * Empty cells ask for nothing, and the cells of a row are attempted in
   * column order 1 to 14: every action of the plan comes from a non-empty
   * cell, and the columns of the plan never go backwards.
   */
  lemma PlanOrdered(env: Env, line: seq<string>)
    requires |line| == CellCount
    ensures var p := Plan(env, line);
      (forall k :: 0 <= k < |p| ==> 1 <= Col(p[k]) <= 14 && line[Col(p[k])] != "") &&
      (forall j, k :: 0 <= j < k < |p| ==> Col(p[j]) <= Col(p[k]))
  {
    var p := Plan(env, line);
    PlanFromOrdered(env, line, 1);
    assert p == PlanFrom(env, line, 1);
    assert InColumnOrder(p, line, 1);
  }

  /** Some action of `p` comes from column `c`. */
  predicate HasColumn(p: seq<Action>, c: nat)
  {
    exists k :: 0 <= k < |p| && Col(p[k]) == c
  }

  lemma HasColumnConcat(ca: seq<Action>, rest: seq<Action>, c: nat)
    requires (ca != [] && Col(ca[0]) == c) || HasColumn(rest, c)
    ensures HasColumn(ca + rest, c)
  {
    if ca != [] && Col(ca[0]) == c {
      assert (ca + rest)[0] == ca[0];
    } else {
      var k :| 0 <= k < |rest| && Col(rest[k]) == c;
      assert (ca + rest)[|ca| + k] == rest[k];
    }
  }

  lemma {:induction false} PlanFromCovers(env: Env, line: seq<string>, col: nat, c: nat)
    requires |line| == CellCount && 1 <= col <= c <= 14 && line[c] != ""
    ensures HasColumn(PlanFrom(env, line, col), c)
    decreases CellCount - col
  {
    var ca := ColumnActions(env, line, col);
    var rest := PlanFrom(env, line, col + 1);
    assert PlanFrom(env, line, col) == ca + rest;
    if col < c {
      PlanFromCovers(env, line, col + 1, c);
      HasColumnConcat(ca, rest, c);
    } else {
      assert ca != [] && Col(ca[0]) == c;
      HasColumnConcat(ca, rest, c);
    }
  }

  /** Every non-empty cell of columns 1 to 14 is attempted by the plan. */
  lemma PlanCoversNonEmptyCells(env: Env, line: seq<string>, c: nat)
    requires |line| == CellCount && 1 <= c <= 14 && line[c] != ""
    ensures exists k :: 0 <= k < |Plan(env, line)| && Col(Plan(env, line)[k]) == c
  {
    var p := Plan(env, line);
    PlanFromCovers(env, line, 1, c);
    assert p == PlanFrom(env, line, 1);
    assert HasColumn(p, c);
  }

  lemma {:induction false} PlanFromBlank(env: Env, line: seq<string>, col: nat)
    requires |line| == CellCount && 1 <= col <= CellCount
    requires forall c :: col <= c < CellCount ==> line[c] == ""
    ensures PlanFrom(env, line, col) == []
    decreases CellCount - col
  {
    if col < CellCount {
      PlanFromBlank(env, line, col + 1);
    }
  }

  /** A data row whose cells 1 to 14 are all empty makes no call and records no error. */
  lemma BlankRowInert(respond: Responder, env: Env, line: seq<string>, b: Batch)
    requires |line| == CellCount
    requires forall c :: 1 <= c < CellCount ==> line[c] == ""
    ensures Exec(respond, line[0], Plan(env, line), b) == RowEnd(b, Ran)
  {
    PlanFromBlank(env, line, 1);
  }

  /** The tags cell is split on ',' and joining the tags with ',' gives the cell back. */
  lemma TagsCellRoundTrip(env: Env, line: seq<string>)
    requires |line| == CellCount && line[9] != ""
    ensures var a := ColumnActions(env, line, 9);
      |a| == 1 && a[0].Mutate? && a[0].call.SetTags? &&
      a[0].call.project == env.project && a[0].call.name == line[0] &&
      Join(a[0].call.tags, ',') == line[9] &&
      forall k :: 0 <= k < |a[0].call.tags| ==> ',' !in a[0].call.tags[k]
  {
    JoinSplit(line[9], ',');
  }

  /** A handle cell holding the decimal text of a 64-bit number writes that number. */
  lemma HandleCellRoundTrip(env: Env, line: seq<string>, col: nat, n: int)
    requires |line| == CellCount && (col == 11 || col == 12)
    requires Strconv.MinInt <= n <= Strconv.MaxInt && line[col] == Strconv.Itoa(n)
    ensures ColumnActions(env, line, col) ==
      [Mutate(col, SetFrame(env.project, line[0], if col == 11 then "handlein" else "handleout", n))]
  {
    Strconv.AtoiItoa(n);
  }

  /** A handle cell that Atoi rejects records the Atoi error and calls nothing. */
  lemma HandleCellRejected(env: Env, line: seq<string>, col: nat)
    requires |line| == CellCount && (col == 11 || col == 12)
    requires line[col] != "" && Strconv.Atoi(line[col]).Err?
    ensures ColumnActions(env, line, col) == [ParseFail(col, Strconv.Atoi(line[col]).error)]
    ensures CallsOf(ColumnActions(env, line, col)) == []
  {
  }

  /** Date cells go through the date parser, with 19 as its first argument, before their setter. */
  lemma DateCell(env: Env, line: seq<string>, col: nat)
    requires |line| == CellCount && 5 <= col <= 7 && line[col] != ""
    ensures var a := ColumnActions(env, line, col);
      var parsed := env.toFullTime(19, line[col]);
      |a| == 1 &&
      (parsed.Err? ==> a[0] == ParseFail(col, parsed.error)) &&
      (parsed.Ok? ==> a[0] == Mutate(col,
        if col == 5 then SetDeadline3D(env.project, line[0], parsed.value)
        else if col == 6 then SetDeadline2D(env.project, line[0], parsed.value)
        else SetFindate(env.project, line[0], parsed.value)))
  {
  }

  /** The JUST timecode OUT cell is written with the setter of the IN timecode. */
  lemma TimecodeOutUsesInSetter(env: Env, line: seq<string>)
    requires |line| == CellCount && line[14] != ""
    ensures ColumnActions(env, line, 14) == [Mutate(14, SetJustTimecodeIn(env.project, line[0], line[14]))]
  {
  }

  /**
   * Each '\n'-separated line of the source cell is one AddSource call whose
   * title is the text before the first ':' and whose path is the text between
   * the first and the second ':'; a line with no ':' panics.
   */
  lemma SourceLine(env: Env, line: seq<string>, k: nat)
    requires |line| == CellCount && line[4] != ""
    requires k < |Split(line[4], '\n')|
    ensures var text := Split(line[4], '\n')[k];
      var a := ColumnActions(env, line, 4)[k];
      (':' !in text <==> a == SourcePanic) &&
      (':' in text ==>
        (a.Source? && a.call.AddSource? &&
         a.call.project == env.project && a.call.name == line[0] && a.call.userID == env.userID &&
         ':' !in a.call.title &&
         var n0 := |a.call.title|;
         var n1 := n0 + 1 + |a.call.path|;
         n1 <= |text| && text[..n0] == a.call.title && text[n0] == ':' &&
         text[n0 + 1..n1] == a.call.path && (n1 == |text| || text[n1] == ':')))
  {
    var text := Split(line[4], '\n')[k];
    SplitSingle(text, ':');
    if ':' in text {
      FirstTwoPieces(text, ':');
    }
  }

  /** The rows after the start of the block are run after the block, with row numbers moved down. */
  lemma {:induction false} RunRowsShift(run: RowRunner, pre: seq<seq<string>>, post: seq<seq<string>>, j: nat, b: Batch)
    requires j <= |post|
    ensures RunRows(run, pre + post, |pre| + j, b) == Shift(RunRows(run, post, j, b), |pre|)
    decreases |post| - j
  {
    var rows := pre + post;
    if j < |post| {
      assert rows[|pre| + j] == post[j];
      var line := post[j];
      if |line| == CellCount && line[0] != Header {
        var r := run(line, b);
        if r.stop != Panic {
          RunRowsShift(run, pre, post, j + 1, r.batch);
        }
      } else if |line| == CellCount {
        RunRowsShift(run, pre, post, j + 1, b);
      }
    }
  }

  /**
   * Rows are processed in sheet order: running two blocks of rows is running
   * the first and, if it completed, the second from where the first left off.
   */
  lemma {:induction false} RunRowsConcat(run: RowRunner, pre: seq<seq<string>>, post: seq<seq<string>>, i: nat, b: Batch)
    requires i <= |pre|
    ensures RunRows(run, pre + post, i, b) ==
      (var r := RunRows(run, pre, i, b);
       if r.status == Completed then Shift(RunRows(run, post, 0, r.batch), |pre|) else r)
    decreases |pre| - i
  {
    var rows := pre + post;
    if i == |pre| {
      RunRowsShift(run, pre, post, 0, b);
    } else {
      assert rows[i] == pre[i];
      var line := pre[i];
      if |line| == CellCount && line[0] != Header {
        var r := run(line, b);
        if r.stop != Panic {
          RunRowsConcat(run, pre, post, i + 1, r.batch);
        }
      } else if |line| == CellCount {
        RunRowsConcat(run, pre, post, i + 1, b);
      }
    }
  }

  /**
   * A row of the wrong length ends the batch there: the rows before it have
   * had their calls made, and no row after it is looked at.
   */
  lemma BadArityStops(run: RowRunner, pre: seq<seq<string>>, bad: seq<string>, later: seq<seq<string>>, b: Batch)
    requires |bad| != CellCount
    ensures RunRows(run, pre + [bad] + later, 0, b) ==
      (var r := RunRows(run, pre, 0, b);
       if r.status == Completed then Run(BadArity(|pre|), r.batch) else r)
  {
    assert pre + [bad] + later == pre + ([bad] + later);
    RunRowsConcat(run, pre, [bad] + later, 0, b);
  }

  /** A header row makes no call and records nothing. */
  lemma HeaderRowInert(run: RowRunner, line: seq<string>, post: seq<seq<string>>, b: Batch)
    requires |line| == CellCount && line[0] == Header
    ensures RunRows(run, [line] + post, 0, b) == Shift(RunRows(run, post, 0, b), 1)
  {
    RunRowsShift(run, [line], post, 0, b);
  }

  // ---------------------------------------------------------------------
  // The store and the handler's loops
  // ---------------------------------------------------------------------

  /** The metadata store as the handler sees it: an oracle that answers calls, and the calls made. */
  class Store {
    const respond: Responder
    var trace: seq<Call>

    constructor (respond: Responder)
      ensures this.respond == respond && trace == []
    {
      this.respond := respond;
      trace := [];
    }

    /** One setter call (SetShotType, SetNote, AddComment, ...) on the store. */
    method Invoke(call: Call) returns (err: Option<string>)
      modifies this
      ensures trace == old(trace) + [call]
      ensures err == respond(old(trace), call)
    {
      err := respond(trace, call);
      trace := trace + [call];
    }
  }

  /**
   * The inner loop over the lines of the source cell: every line is one
   * AddSource call, a failure is recorded and the loop goes on with the next
   * line; a line without ':' panics.
   */
  method ApplySources(store: Store, env: Env, name: string, sources: string, errs0: seq<ErrorItem>)
    returns (errs: seq<ErrorItem>, panicked: bool)
    modifies store
    ensures var r := Exec(store.respond, name, SourceActions(env, name, sources), Batch(old(store.trace), errs0));
      r.batch == Batch(store.trace, errs) && (r.stop == Panic <==> panicked) && r.stop != Failed
  {
    errs := errs0;
    panicked := false;
    ghost var b0 := Batch(store.trace, errs);
    ghost var actions := SourceActions(env, name, sources);
    var lines := Split(sources, '\n');
    for k := 0 to |lines|
      invariant Exec(store.respond, name, actions[..k], b0) == RowEnd(Batch(store.trace, errs), Ran)
    {
      ghost var b := Batch(store.trace, errs);
      assert actions[..k + 1] == actions[..k] + [actions[k]];
      ExecAppend(store.respond, name, actions[..k], [actions[k]], b0);
      var s := lines[k];
      var source := Split(s, ':');
      if |source| < 2 {
        // source[1] is out of range
        assert actions == actions[..k] + actions[k..];
        ExecAppend(store.respond, name, actions[..k], actions[k..], b0);
        panicked := true;
        return;
      }
      var title := source[0];
      var path := source[1];
      var err := store.Invoke(AddSource(env.project, name, env.userID, title, path));
      if err.Some? {
        errs := errs + [ErrorItem(name, err.value)];
        continue;
      }
    }
    assert actions[..|lines|] == actions;
  }

  /** Running the plan from column `col` is running that column, then (if it ran) the rest. */
  lemma ColumnStep(respond: Responder, env: Env, line: seq<string>, col: nat, b: Batch)
    requires |line| == CellCount && 1 <= col <= 14
    ensures Exec(respond, line[0], PlanFrom(env, line, col), b) ==
      (var r := Exec(respond, line[0], ColumnActions(env, line, col), b);
       if r.stop == Ran then Exec(respond, line[0], PlanFrom(env, line, col + 1), r.batch) else r)
  {
    ExecAppend(respond, line[0], ColumnActions(env, line, col), PlanFrom(env, line, col + 1), b);
  }

  /**
   * One block of the row loop's body: cell `col` of a data row, skipped when
   * empty. Outside the source cell a failure records one error item and ends
   * the row (the handler's `continue`).
   */
  method ApplyCell(store: Store, env: Env, line: seq<string>, col: nat, errs0: seq<ErrorItem>)
    returns (errs: seq<ErrorItem>, stop: Stop)
    requires |line| == CellCount && 1 <= col <= 14
    modifies store
    ensures Exec(store.respond, line[0], ColumnActions(env, line, col), Batch(old(store.trace), errs0)) ==
      RowEnd(Batch(store.trace, errs), stop)
  {
    errs := errs0;
    var name := line[0];
    if col == 1 {
      var shottype := line[1];
      if shottype != "" {
        var err := store.Invoke(SetShotType(env.project, name, shottype));
        if err.Some? {
          errs := errs + [ErrorItem(name, err.value)];
          return errs, Failed;
        }
      }
    } else if col == 2 {
      var note := line[2];
      if note != "" {
        var err := store.Invoke(SetNote(env.project, name, env.userID, note, env.overwrite));
        if err.Some? {
          errs := errs + [ErrorItem(name, err.value)];
          return errs, Failed;
        }
      }
    } else if col == 3 {
      var comment := line[3];
      if comment != "" {
        var err := store.Invoke(AddComment(env.project, name, env.userID, env.now, comment));
        if err.Some? {
          errs := errs + [ErrorItem(name, err.value)];
          return errs, Failed;
        }
      }
    } else if col == 4 {
      var sources := line[4];
      if sources != "" {
        var panicked;
        errs, panicked := ApplySources(store, env, name, sources, errs);
        if panicked {
          return errs, Panic;
        }
      }
    } else if col == 5 {
      var ddline3d := line[5];
      if ddline3d != "" {
        var date := env.toFullTime(DateArg, ddline3d);
        if date.Err? {
          errs := errs + [ErrorItem(name, date.error)];
          return errs, Failed;
        }
        var err := store.Invoke(SetDeadline3D(env.project, name, date.value));
        if err.Some? {
          errs := errs + [ErrorItem(name, err.value)];
          return errs, Failed;
        }
      }
    } else if col == 6 {
      var ddline2d := line[6];
      if ddline2d != "" {
        var date := env.toFullTime(DateArg, ddline2d);
        if date.Err? {
          errs := errs + [ErrorItem(name, date.error)];
          return errs, Failed;
        }
        var err := store.Invoke(SetDeadline2D(env.project, name, date.value));
        if err.Some? {
          errs := errs + [ErrorItem(name, err.value)];
          return errs, Failed;
        }
      }
    } else if col == 7 {
      var findate := line[7];
      if findate != "" {
        var date := env.toFullTime(DateArg, findate);
        if date.Err? {
          errs := errs + [ErrorItem(name, date.error)];
          return errs, Failed;
        }
        var err := store.Invoke(SetFindate(env.project, name, date.value));
        if err.Some? {
          errs := errs + [ErrorItem(name, err.value)];
          return errs, Failed;
        }
      }
    } else if col == 8 {
      var finver := line[8];
      if finver != "" {
        var err := store.Invoke(SetFinver(env.project, name, finver));
        if err.Some? {
          errs := errs + [ErrorItem(name, err.value)];
          return errs, Failed;
        }
      }
    } else if col == 9 {
      var tags := line[9];
      if tags != "" {
        var err := store.Invoke(SetTags(env.project, name, Split(tags, ',')));
        if err.Some? {
          errs := errs + [ErrorItem(name, err.value)];
          return errs, Failed;
        }
      }
    } else if col == 10 {
      var rnum := line[10];
      if rnum != "" {
        var err := store.Invoke(SetRnum(env.project, name, rnum));
        if err.Some? {
          errs := errs + [ErrorItem(name, err.value)];
          return errs, Failed;
        }
      }
    } else if col == 11 {
      var handleIn := line[11];
      if handleIn != "" {
        var num := Strconv.Atoi(handleIn);
        if num.Err? {
          errs := errs + [ErrorItem(name, num.error)];
          return errs, Failed;
        }
        var err := store.Invoke(SetFrame(env.project, name, "handlein", num.value));
        if err.Some? {
          errs := errs + [ErrorItem(name, err.value)];
          return errs, Failed;
        }
      }
    } else if col == 12 {
      var handleOut := line[12];
      if handleOut != "" {
        var num := Strconv.Atoi(handleOut);
        if num.Err? {
          errs := errs + [ErrorItem(name, num.error)];
          return errs, Failed;
        }
        var err := store.Invoke(SetFrame(env.project, name, "handleout", num.value));
        if err.Some? {
          errs := errs + [ErrorItem(name, err.value)];
          return errs, Failed;
        }
      }
    } else if col == 13 {
      var justTimecodeIn := line[13];
      if justTimecodeIn != "" {
        var err := store.Invoke(SetJustTimecodeIn(env.project, name, justTimecodeIn));
        if err.Some? {
          errs := errs + [ErrorItem(name, err.value)];
          return errs, Failed;
        }
      }
    } else if col == 14 {
      var justTimecodeOut := line[14];
      if justTimecodeOut != "" {
        var err := store.Invoke(SetJustTimecodeIn(env.project, name, justTimecodeOut));
        if err.Some? {
          errs := errs + [ErrorItem(name, err.value)];
          return errs, Failed;
        }
      }
    }
    return errs, Ran;
  }

  /**
   * Cells 1 to 14 of a data row in order; the row ends at the first cell
   * that fails or panics.
   */
  method ApplyCells(store: Store, env: Env, line: seq<string>, errs0: seq<ErrorItem>)
    returns (errs: seq<ErrorItem>, stop: Stop)
    requires |line| == CellCount
    modifies store
    ensures Exec(store.respond, line[0], Plan(env, line), Batch(old(store.trace), errs0)) ==
      RowEnd(Batch(store.trace, errs), stop)
  {
    errs := errs0;
    ghost var goal := Exec(store.respond, line[0], PlanFrom(env, line, 1), Batch(store.trace, errs));

    ColumnStep(store.respond, env, line, 1, Batch(store.trace, errs));
    errs, stop := ApplyCell(store, env, line, 1, errs);
    if stop != Ran {
      return;
    }
    assert goal == Exec(store.respond, line[0], PlanFrom(env, line, 2), Batch(store.trace, errs));

    ColumnStep(store.respond, env, line, 2, Batch(store.trace, errs));
    errs, stop := ApplyCell(store, env, line, 2, errs);
    if stop != Ran {
      return;
    }
    assert goal == Exec(store.respond, line[0], PlanFrom(env, line, 3), Batch(store.trace, errs));

    ColumnStep(store.respond, env, line, 3, Batch(store.trace, errs));
    errs, stop := ApplyCell(store, env, line, 3, errs);
    if stop != Ran {
      return;
    }
    assert goal == Exec(store.respond, line[0], PlanFrom(env, line, 4), Batch(store.trace, errs));

    ColumnStep(store.respond, env, line, 4, Batch(store.trace, errs));
    errs, stop := ApplyCell(store, env, line, 4, errs);
    if stop != Ran {
      return;
    }
    assert goal == Exec(store.respond, line[0], PlanFrom(env, line, 5), Batch(store.trace, errs));

    ColumnStep(store.respond, env, line, 5, Batch(store.trace, errs));
    errs, stop := ApplyCell(store, env, line, 5, errs);
    if stop != Ran {
      return;
    }
    assert goal == Exec(store.respond, line[0], PlanFrom(env, line, 6), Batch(store.trace, errs));

    ColumnStep(store.respond, env, line, 6, Batch(store.trace, errs));
    errs, stop := ApplyCell(store, env, line, 6, errs);
    if stop != Ran {
      return;
    }
    assert goal == Exec(store.respond, line[0], PlanFrom(env, line, 7), Batch(store.trace, errs));

    ColumnStep(store.respond, env, line, 7, Batch(store.trace, errs));
    errs, stop := ApplyCell(store, env, line, 7, errs);
    if stop != Ran {
      return;
    }
    assert goal == Exec(store.respond, line[0], PlanFrom(env, line, 8), Batch(store.trace, errs));

    ColumnStep(store.respond, env, line, 8, Batch(store.trace, errs));
    errs, stop := ApplyCell(store, env, line, 8, errs);
    if stop != Ran {
      return;
    }
    assert goal == Exec(store.respond, line[0], PlanFrom(env, line, 9), Batch(store.trace, errs));

    ColumnStep(store.respond, env, line, 9, Batch(store.trace, errs));
    errs, stop := ApplyCell(store, env, line, 9, errs);
    if stop != Ran {
      return;
    }
    assert goal == Exec(store.respond, line[0], PlanFrom(env, line, 10), Batch(store.trace, errs));

    ColumnStep(store.respond, env, line, 10, Batch(store.trace, errs));
    errs, stop := ApplyCell(store, env, line, 10, errs);
    if stop != Ran {
      return;
    }
    assert goal == Exec(store.respond, line[0], PlanFrom(env, line, 11), Batch(store.trace, errs));

    ColumnStep(store.respond, env, line, 11, Batch(store.trace, errs));
    errs, stop := ApplyCell(store, env, line, 11, errs);
    if stop != Ran {
      return;
    }
    assert goal == Exec(store.respond, line[0], PlanFrom(env, line, 12), Batch(store.trace, errs));

    ColumnStep(store.respond, env, line, 12, Batch(store.trace, errs));
    errs, stop := ApplyCell(store, env, line, 12, errs);
    if stop != Ran {
      return;
    }
    assert goal == Exec(store.respond, line[0], PlanFrom(env, line, 13), Batch(store.trace, errs));

    ColumnStep(store.respond, env, line, 13, Batch(store.trace, errs));
    errs, stop := ApplyCell(store, env, line, 13, errs);
    if stop != Ran {
      return;
    }
    assert goal == Exec(store.respond, line[0], PlanFrom(env, line, 14), Batch(store.trace, errs));

    ColumnStep(store.respond, env, line, 14, Batch(store.trace, errs));
    errs, stop := ApplyCell(store, env, line, 14, errs);
    if stop != Ran {
      return;
    }
    assert goal == Exec(store.respond, line[0], PlanFrom(env, line, 15), Batch(store.trace, errs));
  }

  /** The body of the row loop for one data row, as the row loop sees it. */
  method ApplyRow(store: Store, env: Env, line: seq<string>, errs0: seq<ErrorItem>)
    returns (errs: seq<ErrorItem>, stop: Stop)
    requires |line| == CellCount
    modifies store
    ensures SubmitRow(store.respond, env)(line, Batch(old(store.trace), errs0)) ==
      RowEnd(Batch(store.trace, errs), stop)
  {
    errs, stop := ApplyCells(store, env, line, errs0);
  }

  /**
   * The row loop of handleExcelSubmit over a non-empty sheet: a row of the
   * wrong length ends the run; header rows are skipped; every other row is
   * applied and its error items appended in order.
   */
  method ApplyRows(store: Store, env: Env, excelRows: seq<seq<string>>)
    returns (status: Status, errorItems: seq<ErrorItem>)
    modifies store
    ensures RunRows(SubmitRow(store.respond, env), excelRows, 0, Batch(old(store.trace), [])) ==
      Run(status, Batch(store.trace, errorItems))
  {
    errorItems := [];
    ghost var run := SubmitRow(store.respond, env);
    ghost var goal := RunRows(run, excelRows, 0, Batch(store.trace, errorItems));
    for i := 0 to |excelRows|
      invariant goal == RunRows(run, excelRows, i, Batch(store.trace, errorItems))
    {
      var line := excelRows[i];
      var kind := Classify(line);
      if kind == Malformed {
        return BadArity(i), errorItems;
      }
      if kind == HeaderRow {
        continue;
      }
      var stop;
      errorItems, stop := ApplyRow(store, env, line, errorItems);
      if stop == Panic {
        return Panicked(i), errorItems;
      }
    }
    return Completed, errorItems;
  }

  /**
   * handleExcelSubmit from the rows of the sheet on (the form value
   * `overwrite` read through str2bool): an empty sheet is refused, any other
   * goes through the row loop.
   */
  method HandleExcelSubmit(store: Store, excelRows: seq<seq<string>>, project: string, userID: string,
                           now: string, overwrite: string, toFullTime: DateParser)
    returns (status: Status, errorItems: seq<ErrorItem>)
    modifies store
    ensures ApplyExcel(store.respond, Env(project, userID, now, Check.Str2Bool(overwrite), toFullTime),
                       excelRows, Batch(old(store.trace), [])) ==
      Run(status, Batch(store.trace, errorItems))
  {
    var env := Env(project, userID, now, Check.Str2Bool(overwrite), toFullTime);
    if |excelRows| == 0 {
      return EmptySheet, [];
    }
    status, errorItems := ApplyRows(store, env, excelRows);
  }
}
