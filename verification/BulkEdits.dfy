/**
 The edits that take a count do all of it at once: SU, SD, IL, DL, ICH and DCH
 of n leave the screen that n of them by one leave.
 */
module BulkEdits {
  import opened Terminal

  datatype Edit = SU | SD | IL | DL | ICH | DCH

  function Do(edit: Edit, d: Display, count: nat): (r: Display)
    requires DisplayOk(d)
    ensures DisplayOk(r)
  {
    match edit
    case SU => ScrollUp(d, count)
    case SD => ScrollDown(d, count)
    case IL => InsertLines(d, count)
    case DL => DeleteLines(d, count)
    case ICH => InsertCharacters(d, count)
    case DCH => DeleteCharacters(d, count)
  }

  /** The edit with count 1, `n` times over. */
  ghost function Times(edit: Edit, d: Display, n: nat): (r: Display)
    requires DisplayOk(d)
    ensures DisplayOk(r)
  {
    if n == 0 then d else Do(edit, Times(edit, d, n - 1), 1)
  }

  lemma ShiftUpsAdd(g: Grid, columns: nat, top: nat, bottom: nat, n: nat)
    requires top <= bottom < |g| && AllOfWidth(g, columns)
    ensures ShiftUp(ShiftUp(g, columns, top, bottom, n), columns, top, bottom, 1)
         == ShiftUp(g, columns, top, bottom, n + 1)
  {
    var once := ShiftUp(ShiftUp(g, columns, top, bottom, n), columns, top, bottom, 1);
    assert forall i :: 0 <= i < |g| ==> once[i] == ShiftUp(g, columns, top, bottom, n + 1)[i];
  }

  lemma ShiftDownsAdd(g: Grid, columns: nat, top: nat, bottom: nat, n: nat)
    requires top <= bottom < |g| && AllOfWidth(g, columns)
    ensures ShiftDown(ShiftDown(g, columns, top, bottom, n), columns, top, bottom, 1)
         == ShiftDown(g, columns, top, bottom, n + 1)
  {
    var once := ShiftDown(ShiftDown(g, columns, top, bottom, n), columns, top, bottom, 1);
    assert forall i :: 0 <= i < |g| ==> once[i] == ShiftDown(g, columns, top, bottom, n + 1)[i];
  }

  lemma CellShiftsAdd(row: Row, column: nat, n: nat)
    ensures ShiftRight(ShiftRight(row, column, n), column, 1) == ShiftRight(row, column, n + 1)
    ensures ShiftLeft(ShiftLeft(row, column, n), column, 1) == ShiftLeft(row, column, n + 1)
  {
  }

  /** The same but for what was logged. */
  predicate ButLog(a: Display, b: Display) { a == b.(log := a.log) }

  lemma OneMoreScroll(edit: Edit, d: Display, n: nat, log: Log)
    requires (edit.SU? || edit.SD?) && DisplayOk(d) && n >= 1 && LogOk(log, d.size.rows)
    ensures OneMoreIsOne(edit, d, n, log)
  {
    if edit.SU? {
      ShiftUpsAdd(d.screen, d.size.columns, d.region.top, d.region.bottom, n);
    } else {
      ShiftDownsAdd(d.screen, d.size.columns, d.region.top, d.region.bottom, n);
    }
  }

  lemma OneMoreLine(edit: Edit, d: Display, n: nat, log: Log)
    requires (edit.IL? || edit.DL?) && DisplayOk(d) && n >= 1 && LogOk(log, d.size.rows)
    ensures OneMoreIsOne(edit, d, n, log)
  {
    if InRegion(d) {
      ShiftDownsAdd(d.screen, d.size.columns, d.cursor.row, d.region.bottom, n);
      ShiftUpsAdd(d.screen, d.size.columns, d.cursor.row, d.region.bottom, n);
    }
  }

  lemma OneMoreCell(edit: Edit, d: Display, n: nat, log: Log)
    requires (edit.ICH? || edit.DCH?) && DisplayOk(d) && n >= 1 && LogOk(log, d.size.rows)
    ensures OneMoreIsOne(edit, d, n, log)
  {
    CellShiftsAdd(CurrentRow(d), d.cursor.column, n);
  }

  ghost predicate OneMoreIsOne(edit: Edit, d: Display, n: nat, log: Log)
    requires DisplayOk(d) && LogOk(log, d.size.rows)
  {
    var bulk := Do(edit, d, n).(log := log);
    ButLog(Do(edit, bulk, 1), Do(edit, d, n + 1))
  }

  /** One more step after `n` at once is `n + 1` at once, the log aside. */
  lemma OneMore(edit: Edit, d: Display, n: nat, log: Log)
    requires DisplayOk(d) && n >= 1 && LogOk(log, d.size.rows)
    ensures var bulk := Do(edit, d, n).(log := log);
            Do(edit, bulk, 1) == Do(edit, d, n + 1).(log := Do(edit, bulk, 1).log)
  {
    if edit.SU? || edit.SD? {
      OneMoreScroll(edit, d, n, log);
    } else if edit.IL? || edit.DL? {
      OneMoreLine(edit, d, n, log);
    } else {
      OneMoreCell(edit, d, n, log);
    }
  }

  lemma {:induction false} BulkButLog(edit: Edit, d: Display, n: nat)
    requires DisplayOk(d) && n >= 1
    ensures ButLog(Times(edit, d, n), Do(edit, d, n))
    decreases n
  {
    if n == 1 {
      TimesOnce(edit, d);
    } else {
      BulkButLog(edit, d, n - 1);
      BulkOnceMore(edit, d, n - 1);
    }
  }

  lemma BulkOnceMore(edit: Edit, d: Display, n: nat)
    requires DisplayOk(d) && n >= 1 && ButLog(Times(edit, d, n), Do(edit, d, n))
    ensures ButLog(Times(edit, d, n + 1), Do(edit, d, n + 1))
  {
    BulkStep(edit, d, n, Times(edit, d, n), Times(edit, d, n + 1));
  }

  lemma TimesOnce(edit: Edit, d: Display)
    requires DisplayOk(d)
    ensures Times(edit, d, 1) == Do(edit, d, 1)
  {
    assert Times(edit, d, 0) == d;
  }

  lemma BulkStep(edit: Edit, d: Display, n: nat, steps: Display, after: Display)
    requires DisplayOk(d) && n >= 1 && DisplayOk(steps) && ButLog(steps, Do(edit, d, n)) && after == Do(edit, steps, 1)
    ensures ButLog(after, Do(edit, d, n + 1))
  {
    OneMore(edit, d, n, steps.log);
  }

  /** The lines a scroll by `n` pushes out, if nothing bounded it: those of
      the region in order, then blanks. */
  function PushedOut(d: Display, n: nat): (lines: Grid)
    requires DisplayOk(d) && KeepsHistory(d)
    ensures |lines| == n
  {
    var own := Min(n, RegionHeight(d));
    d.screen[..own] + BlankRows(n - own, d.size.columns)
  }

  lemma OneMorePushedOut(d: Display, n: nat)
    requires DisplayOk(d) && KeepsHistory(d)
    ensures PushedOut(d, n + 1)
         == PushedOut(d, n) + [if n < RegionHeight(d) then d.screen[n] else BlankRow(d.size.columns)]
  {
  }

  lemma LoggedInTwo(log: Log, first: Grid, second: Grid)
    ensures Logged(Logged(log, first), second) == Logged(log, first + second)
  {
    assert log.history + first + second == log.history + (first + second);
  }

  /** A single scroll logs the top line. */
  lemma ScrollLogs(d: Display)
    requires DisplayOk(d) && KeepsHistory(d)
    ensures ScrollUp(d, 1).log == Logged(d.log, [d.screen[0]])
    ensures KeepsHistory(ScrollUp(d, 1)) && |ScrollUp(d, 1).log.history| == |d.log.history| + 1
  {
    assert d.screen[..1] == [d.screen[0]];
  }

  /** After a scroll by `n`, the top line is the next to go. */
  lemma TopAfter(d: Display, n: nat)
    requires DisplayOk(d) && KeepsHistory(d) && n >= 1
    ensures ScrollUp(d, n).screen[0] == if n < RegionHeight(d) then d.screen[n] else BlankRow(d.size.columns)
  {
  }

  /** What single scrolls send to the history, one after another: the lines
      of the region in order, and blank ones from there on. */
  lemma {:induction false} LogOfSteps(d: Display, n: nat)
    requires DisplayOk(d) && KeepsHistory(d) && n >= 1
    ensures var r := Times(SU, d, n);
            KeepsHistory(r) && r.log == Logged(d.log, PushedOut(d, n))
    decreases n
  {
    if n == 1 {
      TimesOnce(SU, d);
      ScrollLogs(d);
      assert PushedOut(d, 1) == [d.screen[0]];
    } else {
      LogOfSteps(d, n - 1);
      var before := Times(SU, d, n - 1);
      ScrollLogs(before);
      BulkButLog(SU, d, n - 1);
      TopAfter(d, n - 1);
      OneMorePushedOut(d, n - 1);
      LoggedInTwo(d.log, PushedOut(d, n - 1), [before.screen[0]]);
    }
  }

  lemma {:induction false} NoLog(edit: Edit, d: Display, n: nat)
    requires DisplayOk(d) && !(edit == SU && KeepsHistory(d))
    ensures var r := Times(edit, d, n);
            r.log == d.log && r.saved == d.saved && r.region == d.region
    decreases n
  {
    if n > 0 {
      NoLog(edit, d, n - 1);
    }
  }

  /** The bulk scroll logs the region's lines only. */
  lemma SameLogWhenBounded(d: Display, n: nat)
    requires DisplayOk(d) && KeepsHistory(d) && n >= 1
    ensures Logged(d.log, PushedOut(d, n)) == ScrollUp(d, n).log <==> n <= RegionHeight(d)
  {
    var own := Min(n, RegionHeight(d));
    if n <= RegionHeight(d) {
      assert PushedOut(d, n) == d.screen[..own];
    } else {
      assert |Logged(d.log, PushedOut(d, n)).history| > |Logged(d.log, d.screen[..own]).history|;
    }
  }

  /** Any count at once is that many single steps: always the same screen
      and cursor, and the same terminal altogether except exactly when SU
      records history and is asked for more lines than the region has — the
      steps then record the blanks that follow, the bulk edit does not. */
  lemma BulkIsSteps(edit: Edit, d: Display, n: nat)
    requires DisplayOk(d) && n >= 1
    ensures Times(edit, d, n) == Do(edit, d, n).(log := Times(edit, d, n).log)
    ensures Times(edit, d, n) == Do(edit, d, n)
       <==> (edit == SU && KeepsHistory(d) ==> n <= RegionHeight(d))
  {
    BulkButLog(edit, d, n);
    if edit == SU && KeepsHistory(d) {
      LogOfSteps(d, n);
      SameLogWhenBounded(d, n);
    } else {
      NoLog(edit, d, n);
      NoLog(edit, d, 1);
    }
  }

  lemma OneBlankLine(d: Display)
    requires DisplayOk(d) && d == Init(1, 1).display
    ensures d.screen == [[SPACE]] && d.screen[..1] == [[SPACE]] && BlankRow(1) == [SPACE]
    ensures PushedOut(d, 2) == [[SPACE], [SPACE]]
  {
    assert BlankRow(1) == [SPACE];
    assert d.screen[0] == [SPACE];
    assert d.screen == [[SPACE]];
  }

  /** Two scrolls of a one-line screen put two lines in the history; SU 2 puts
      one there. */
  lemma TwoScrollsOfOneLine()
    ensures var d := Init(1, 1).display;
            && Times(SU, d, 2).log.history == [[SPACE], [SPACE]]
            && Do(SU, d, 2).log.history == [[SPACE]]
  {
    var d := Init(1, 1).display;
    LogOfSteps(d, 2);
    OneBlankLine(d);
    assert [] + [[SPACE], [SPACE]] == [[SPACE], [SPACE]] && [] + [[SPACE]] == [[SPACE]];
  }
}
