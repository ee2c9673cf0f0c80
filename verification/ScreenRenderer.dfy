/**
 The renderer as it runs: fields updated in place, byte by byte, with a
 scrollback capped at `SCROLLBACK_LIMIT` lines. `history` is ghost: every
 line that ever left the primary screen. Each method is proved to do to the
 terminal the renderer stands for what the function of the same name in
 Terminal does.
 */
module Renderer {
  import opened Bytes
  import opened T = Terminal
  import opened Transcripts
  import opened Wrappers

  /** Removing at the top of a region and inserting at its bottom, the count
      cut to the region's height, moves the region up by the whole count. */
  lemma RemovalIsShiftUp(g: Grid, columns: nat, top: nat, bottom: nat, n: nat)
    requires top <= bottom < |g| && AllOfWidth(g, columns)
    ensures var lines := Min(n, bottom - top + 1);
            var kept := g[..top] + g[top + lines..];
            kept[..bottom + 1 - lines] + BlankRows(lines, columns) + kept[bottom + 1 - lines..]
              == ShiftUp(g, columns, top, bottom, n)
  {
    var lines := Min(n, bottom - top + 1);
    var kept := g[..top] + g[top + lines..];
    var moved := kept[..bottom + 1 - lines] + BlankRows(lines, columns) + kept[bottom + 1 - lines..];
    var shifted := ShiftUp(g, columns, top, bottom, n);
    assert forall i :: 0 <= i < |g| ==> moved[i] == shifted[i];
    assert moved == shifted;
  }

  lemma RemovalIsShiftDown(g: Grid, columns: nat, top: nat, bottom: nat, n: nat)
    requires top <= bottom < |g| && AllOfWidth(g, columns)
    ensures var lines := Min(n, bottom - top + 1);
            var kept := g[..bottom + 1 - lines] + g[bottom + 1..];
            kept[..top] + BlankRows(lines, columns) + kept[top..] == ShiftDown(g, columns, top, bottom, n)
  {
    var lines := Min(n, bottom - top + 1);
    var kept := g[..bottom + 1 - lines] + g[bottom + 1..];
    var moved := kept[..top] + BlankRows(lines, columns) + kept[top..];
    var shifted := ShiftDown(g, columns, top, bottom, n);
    assert forall i :: 0 <= i < |g| ==> moved[i] == shifted[i];
    assert moved == shifted;
  }

  class ScreenRenderer {
    const unicode: Unicode
    const columns: nat
    const rows: nat
    var screen: Grid
    var scrollback: seq<Row>
    var cursor: Cursor
    var savedCursor: Position
    var region: Region
    var autoWrap: bool
    var saved: Option<Saved>
    var marks: Marks
    var scrolledOffRows: nat
    var parser: Parser

    ghost var history: seq<Row>

    ghost function Shown(): Display
      reads this
    {
      Display(Size(columns, rows), screen, cursor, savedCursor, region, autoWrap, saved,
              Log(history, scrolledOffRows, marks))
    }

    /** The terminal this renderer stands for. */
    ghost function Value(): Term
      reads this
    {
      Term(Shown(), parser)
    }

    /** The scrollback is the history's suffix from `scrolledOffRows` on. */
    ghost predicate Valid()
      reads this
    {
      && Ok(Value())
      && scrollback == history[scrolledOffRows..]
    }

    constructor (unicode: Unicode, columns: nat, rows: nat)
      ensures this.unicode == unicode && Value() == T.Init(columns, rows)
      ensures Valid()
    {
      this.unicode := unicode;
      this.columns := Max(1, columns);
      this.rows := Max(1, rows);
      screen := BlankRows(Max(1, rows), Max(1, columns));
      scrollback, history, scrolledOffRows := [], [], 0;
      cursor, savedCursor := Cursor(0, 0, false), Position(0, 0);
      region := Region(0, Max(1, rows) - 1);
      autoWrap, saved, marks := true, None, Marks(None, None);
      parser := Parser(Ground, [], [], [], 0);
    }

    // ------------------------------------------------------------- Input

    method Feed(data: seq<byte>)
      requires Valid()
      modifies this
      ensures Value() == T.Feed(unicode, old(Value()), data)
      ensures Valid()
    {
      for i := 0 to |data|
        invariant Valid()
        invariant T.Feed(unicode, Value(), data[i..]) == T.Feed(unicode, old(Value()), data)
      {
        Consume(data[i]);
      }
    }

    method Consume(byte: byte)
      requires Valid()
      modifies this
      ensures Value() == T.Consume(unicode, old(Value()), byte)
      ensures Valid()
    {
      match parser.state {
        case Ground => GroundByte(byte);
        case Escape => EscapeByte(byte);
        case Csi => SequenceByte(byte);
        case OperatingSystemCommand =>
          if byte == 0x07 {
            parser := parser.(state := Ground);
            ApplyOperatingSystemCommand();
          } else if byte == 0x1B {
            parser := parser.(state := StringEscape);
            ApplyOperatingSystemCommand();
          } else if |parser.osc| < 8 {
            parser := parser.(osc := parser.osc + [byte]);
          }
        case IgnoredString =>
          if byte == 0x1B {
            parser := parser.(state := StringEscape);
          }
        case StringEscape =>
          if byte == 0x5C {
            parser := parser.(state := Ground);
          } else if byte == 0x1B {
            parser := parser.(state := StringEscape);
          } else {
            parser := parser.(state := IgnoredString);
          }
        case Charset =>
          parser := parser.(state := Ground);
      }
    }

    method SequenceByte(byte: byte)
      requires Valid() && parser.state.Csi?
      modifies this
      ensures Value() == T.Consume(unicode, old(Value()), byte)
      ensures Valid()
    {
      if byte >= 0x40 && byte <= 0x7E {
        var sequence := parser.csi;
        parser := parser.(csi := [], state := Ground);
        ApplyControlSequence(sequence, byte);
      } else if byte >= 0x20 && byte <= 0x3F {
        if |parser.csi| < 64 {
          parser := parser.(csi := parser.csi + [byte]);
        }
      } else {
        parser := parser.(csi := [], state := Ground);
        GroundByte(byte);
      }
    }

    method GroundByte(byte: byte)
      requires Valid() && parser.state.Ground?
      modifies this
      ensures Value() == T.Consume(unicode, old(Value()), byte)
      ensures Valid()
    {
      if parser.pendingLength > 0 {
        if IsContinuation(byte) {
          var bytes := parser.pending + [byte];
          if |bytes| == parser.pendingLength {
            parser := parser.(pending := [], pendingLength := 0);
            EmitPendingScalar(bytes);
          } else {
            parser := parser.(pending := bytes);
          }
          return;
        }
        parser := parser.(pending := [], pendingLength := 0);
      }
      match byte {
        case 0x00 => return;
        case 0x07 => return;
        case 0x08 => MoveTo(cursor.row, Max(0, cursor.column - 1));
        case 0x09 =>
          var next := ((cursor.column / 8) + 1) * 8;
          MoveTo(cursor.row, Min(columns - 1, next));
        case 0x0A => Index();
        case 0x0B => Index();
        case 0x0C => Index();
        case 0x0D => MoveTo(cursor.row, 0);
        case 0x1B => parser := parser.(state := Escape);
        case 0x7F => return;
        case _ =>
          if byte < 0x20 {
            return;
          }
          if byte < 0x80 {
            Place([byte], 1);
            return;
          }
          var length;
          if 0xC0 <= byte < 0xE0 {
            length := 2;
          } else if 0xE0 <= byte < 0xF0 {
            length := 3;
          } else if 0xF0 <= byte < 0xF8 {
            length := 4;
          } else {
            return;
          }
          parser := parser.(pendingLength := length, pending := [byte]);
      }
    }

    method EmitPendingScalar(bytes: seq<byte>)
      requires Valid() && IsWholeSequence(bytes)
      modifies this
      ensures Shown() == T.EmitBytes(unicode, old(Shown()), bytes) && parser == old(parser)
      ensures Valid()
    {
      var scalar := Decode(bytes);
      if scalar.None? {
        return;
      }
      var width := Width(unicode, scalar.value);
      if width == 0 {
        AttachCombining(scalar.value);
        return;
      }
      Place([scalar.value], width);
    }

    method EscapeByte(byte: byte)
      requires Valid() && parser.state.Escape?
      modifies this
      ensures Value() == T.Consume(unicode, old(Value()), byte)
      ensures Valid()
    {
      parser := parser.(state := Ground);
      match byte {
        case 0x5B => parser := parser.(csi := [], state := Csi);
        case 0x5D => parser := parser.(osc := [], state := OperatingSystemCommand);
        case 0x37 => savedCursor := Position(cursor.row, cursor.column);
        case 0x38 => MoveTo(Min(rows - 1, savedCursor.row), Min(columns - 1, savedCursor.column));
        case 0x44 => Index();
        case 0x45 => NextLine();
        case 0x4D => ReverseIndex();
        case 0x63 => Reset();
        case _ =>
          if byte in {0x50, 0x58, 0x5E, 0x5F} {
            parser := parser.(state := IgnoredString);
          } else if byte in {0x28, 0x29, 0x2A, 0x2B} {
            parser := parser.(state := Charset);
          }
      }
    }

    // ------------------------------------------------- Control sequences

    method ApplyControlSequence(sequence: seq<byte>, final: byte)
      requires Valid()
      modifies this
      ensures Shown() == T.ApplyControlSequence(old(Shown()), sequence, final) && parser == old(parser)
      ensures Valid()
    {
      var parsed := ParseSequence(sequence);
      match parsed {
        case Ignored => return;
        case Private(parameters) =>
          match final {
            case 0x68 => SetPrivateMode(parameters, true);
            case 0x6C => SetPrivateMode(parameters, false);
            case _ => return;
          }
        case Public(parameters) => ApplyPublic(parameters, final);
      }
    }

    method ApplyPublic(parameters: seq<int>, final: byte)
      requires Valid() && ParametersOk(parameters)
      modifies this
      ensures Shown() == T.ApplyPublic(old(Shown()), parameters, final) && parser == old(parser)
      ensures Valid()
    {
      var count := Parameter(parameters, 0, 1);
      if MovesCursor(final) {
        MoveCursor(parameters, final);
        return;
      }
      match final {
        case 0x4A => EraseInDisplay(RawParameter(parameters, 0));
        case 0x4B => EraseInLine(RawParameter(parameters, 0));
        case 0x4C => InsertLines(count);
        case 0x4D => DeleteLines(count);
        case 0x40 => InsertCharacters(count);
        case 0x50 => DeleteCharacters(count);
        case 0x58 => EraseCharacters(count);
        case 0x53 => ScrollUp(count);
        case 0x54 => ScrollDown(count);
        case 0x72 => SetScrollRegion(count, Parameter(parameters, 1, rows));
        case 0x73 => savedCursor := Position(cursor.row, cursor.column);
        case 0x75 => MoveTo(Clamp(savedCursor.row, rows), Clamp(savedCursor.column, columns));
        case _ =>
      }
    }

    method MoveCursor(parameters: seq<int>, final: byte)
      requires Valid() && ParametersOk(parameters) && MovesCursor(final)
      modifies this
      ensures Shown() == T.MoveCursor(old(Shown()), parameters, final) && parser == old(parser)
      ensures Valid()
    {
      var count := Parameter(parameters, 0, 1);
      var row, column := cursor.row, cursor.column;
      match final {
        case 0x41 => row := Max(if row >= region.top then region.top else 0, row - count);
        case 0x42 => row := Min(if row <= region.bottom then region.bottom else rows - 1, row + count);
        case 0x43 => column := Min(columns - 1, column + count);
        case 0x44 => column := Max(0, column - count);
        case 0x45 => row, column := Min(rows - 1, row + count), 0;
        case 0x46 => row, column := Max(0, row - count), 0;
        case 0x47 => column := Clamp(count - 1, columns);
        case 0x60 => column := Clamp(count - 1, columns);
        case 0x64 => row := Clamp(count - 1, rows);
        case _ => row, column := Clamp(count - 1, rows), Clamp(Parameter(parameters, 1, 1) - 1, columns);
      }
      MoveTo(row, column);
    }

    /** The cursor goes to a cell, and owes no wrap there. */
    method MoveTo(row: nat, column: nat)
      requires Valid() && row < rows && column < columns
      modifies this`cursor
      ensures Shown() == T.At(old(Shown()), row, column)
      ensures Valid()
    {
      cursor := Cursor(row, column, false);
    }

    method SetScrollRegion(first: nat, last: nat)
      requires Valid()
      modifies this
      ensures Shown() == T.SetScrollRegion(old(Shown()), first, last) && parser == old(parser)
      ensures Valid()
    {
      var top := Clamp(first - 1, rows);
      var bottom := Clamp(last - 1, rows);
      if top < bottom {
        region := Region(top, bottom);
      } else {
        region := Region(0, rows - 1);
      }
      MoveTo(region.top, 0);
    }

    method SetPrivateMode(parameters: seq<int>, enabled: bool)
      requires Valid()
      modifies this
      ensures Shown() == T.SetPrivateModes(old(Shown()), parameters, enabled) && parser == old(parser)
      ensures Valid()
    {
      for i := 0 to |parameters|
        invariant Valid() && parser == old(parser)
        invariant T.SetPrivateModes(Shown(), parameters[i..], enabled)
               == T.SetPrivateModes(old(Shown()), parameters, enabled)
      {
        var mode := parameters[i];
        if mode == 7 {
          autoWrap := enabled;
        } else if mode == 47 || mode == 1047 || mode == 1049 {
          SetAlternateScreen(enabled, mode == 1049);
        }
      }
    }

    method ApplyOperatingSystemCommand()
      requires Valid()
      modifies this
      ensures Shown() == T.ApplyOperatingSystemCommand(old(Shown()), old(parser).osc)
      ensures parser == old(parser).(osc := [])
      ensures Valid()
    {
      var body := parser.osc;
      parser := parser.(osc := []);
      if saved.Some? || |body| < 5 || body[..4] != [0x31, 0x33, 0x33, 0x3B] {
        return;
      }
      var row := scrolledOffRows + |scrollback| + cursor.row;
      match body[4] {
        case 0x41 => marks := marks.(promptStart := Some(row));
        case 0x43 => marks := marks.(outputStart := Some(row));
        case _ =>
      }
    }

    method SetAlternateScreen(enabled: bool, restoresCursor: bool)
      requires Valid()
      modifies this
      ensures Shown()
           == if enabled then T.EnterAlternate(old(Shown()), restoresCursor) else T.LeaveAlternate(old(Shown()))
      ensures parser == old(parser)
      ensures Valid()
    {
      if enabled {
        if saved.Some? {
          return;
        }
        saved := Some(Saved(screen, Position(cursor.row, cursor.column), restoresCursor));
        screen := BlankRows(rows, columns);
        MoveTo(0, 0);
      } else {
        if saved.None? {
          return;
        }
        screen := saved.value.screen;
        var row, column := cursor.row, cursor.column;
        if saved.value.usesCursor {
          row := Clamp(saved.value.cursor.row, rows);
          column := Clamp(saved.value.cursor.column, columns);
        }
        saved := None;
        MoveTo(row, column);
      }
    }

    method Reset()
      requires Valid()
      modifies this
      ensures Shown() == T.Reset(old(Shown())) && parser == old(parser)
      ensures Valid()
    {
      screen := BlankRows(rows, columns);
      cursor := Cursor(0, 0, false);
      savedCursor := Position(0, 0);
      region := Region(0, rows - 1);
      autoWrap := true;
      saved := None;
    }

    // --------------------------------------------------- Grid operations

    method Place(character: Cell, width: nat)
      requires Valid() && 1 <= width <= 2
      modifies this
      ensures Shown() == T.Place(old(Shown()), character, width) && parser == old(parser)
      ensures Valid()
    {
      if cursor.wrapPending && autoWrap {
        NextLine();
      }
      if width == 2 && cursor.column == columns - 1 {
        if !autoWrap {
          return;
        }
        NextLine();
      }
      PutCharacter(character, width);
    }

    /** The first column of the next line. */
    method NextLine()
      requires Valid()
      modifies this
      ensures Shown() == T.NextLine(old(Shown())) && parser == old(parser)
      ensures Valid()
    {
      MoveTo(cursor.row, 0);
      Index();
    }

    /** The rest of `Place`, once the cursor is where the character goes. */
    method PutCharacter(character: Cell, width: nat)
      requires Valid() && 1 <= width <= 2
      modifies this
      ensures Shown() == T.Put(old(Shown()), character, width) && parser == old(parser)
      ensures Valid()
    {
      var row := Overwrite(screen[cursor.row], cursor.column, character, width);
      screen := screen[cursor.row := row];
      cursor := cursor.(column := cursor.column + width);
      if cursor.column >= columns {
        cursor := cursor.(column := columns - 1, wrapPending := true);
      }
    }

    /** The row with `character` in it, one cell wide or two. A glyph cut by
        either edge of the new cells leaves a space outside them. */
    static method Overwrite(cells: Row, column: nat, character: Cell, width: nat) returns (row: Row)
      requires column < |cells| && 1 <= width <= 2
      ensures row == Written(cells, column, character, width)
    {
      row := cells;
      if row[column] == SPACER && column > 0 {
        row := row[column - 1 := SPACE];
      }
      if column + width < |row| && row[column + width] == SPACER {
        row := row[column + width := SPACE];
      }
      row := row[column := character];
      if width == 2 && column + 1 < |row| {
        row := row[column + 1 := SPACER];
      }
    }

    method AttachCombining(mark: Scalar)
      requires Valid()
      modifies this
      ensures Shown() == T.AttachCombining(unicode, old(Shown()), mark) && parser == old(parser)
      ensures Valid()
    {
      var row := screen[cursor.row];
      var column: int := cursor.column;
      if !cursor.wrapPending {
        column := column - 1;
      }
      while column >= 0 && row[column] == SPACER
        invariant -1 <= column < columns
        invariant BaseColumn(row, column)
               == BaseColumn(row, if cursor.wrapPending then cursor.column else cursor.column - 1)
      {
        column := column - 1;
      }
      if column < 0 || !unicode.joins(row[column], mark) {
        return;
      }
      screen := screen[cursor.row := row[column := row[column] + [mark]]];
    }

    method Index()
      requires Valid()
      modifies this
      ensures Shown() == T.Index(old(Shown())) && parser == old(parser)
      ensures Valid()
    {
      if cursor.row == region.bottom {
        ScrollUp(1);
      } else if cursor.row < rows - 1 {
        cursor := cursor.(row := cursor.row + 1);
      }
      cursor := cursor.(wrapPending := false);
    }

    method ReverseIndex()
      requires Valid()
      modifies this
      ensures Shown() == T.ReverseIndex(old(Shown())) && parser == old(parser)
      ensures Valid()
    {
      if cursor.row == region.top {
        ScrollDown(1);
      } else if cursor.row > 0 {
        cursor := cursor.(row := cursor.row - 1);
      }
      cursor := cursor.(wrapPending := false);
    }

    /** The rows of `top ..= bottom` move up: as many as the region holds
        of the count are removed at its top, and blanks put in below. */
    method MoveUp(top: nat, bottom: nat, count: nat)
      requires top <= bottom < |screen| && AllOfWidth(screen, columns)
      modifies this`screen
      ensures screen == ShiftUp(old(screen), columns, top, bottom, count)
    {
      var lines := Min(count, bottom - top + 1);
      RemovalIsShiftUp(screen, columns, top, bottom, count);
      var kept := screen[..top] + screen[top + lines..];
      screen := kept[..bottom + 1 - lines] + BlankRows(lines, columns) + kept[bottom + 1 - lines..];
    }

    method MoveDown(top: nat, bottom: nat, count: nat)
      requires top <= bottom < |screen| && AllOfWidth(screen, columns)
      modifies this`screen
      ensures screen == ShiftDown(old(screen), columns, top, bottom, count)
    {
      var lines := Min(count, bottom - top + 1);
      RemovalIsShiftDown(screen, columns, top, bottom, count);
      var kept := screen[..bottom + 1 - lines] + screen[bottom + 1..];
      screen := kept[..top] + BlankRows(lines, columns) + kept[top..];
    }

    /** Lines become history; past the limit the oldest kept ones go. */
    method AppendScrollback(lines: seq<Row>)
      requires Valid()
      modifies this`scrollback, this`history, this`scrolledOffRows
      ensures Log(history, scrolledOffRows, marks) == Logged(old(Shown().log), lines)
      ensures Valid()
    {
      scrollback := scrollback + lines;
      history := history + lines;
      assert scrollback == history[scrolledOffRows..];
      if |scrollback| > SCROLLBACK_LIMIT {
        var excess := |scrollback| - SCROLLBACK_LIMIT;
        scrollback := scrollback[excess..];
        scrolledOffRows := scrolledOffRows + excess;
      }
    }

    method ScrollUp(count: nat)
      requires Valid()
      modifies this
      ensures Shown() == T.ScrollUp(old(Shown()), count) && parser == old(parser)
      ensures Valid()
    {
      var lines := Min(Max(1, count), region.bottom - region.top + 1);
      if saved.None? && region.top == 0 {
        AppendScrollback(screen[0..lines]);
      }
      MoveUp(region.top, region.bottom, Max(1, count));
    }

    method ScrollDown(count: nat)
      requires Valid()
      modifies this
      ensures Shown() == T.ScrollDown(old(Shown()), count) && parser == old(parser)
      ensures Valid()
    {
      MoveDown(region.top, region.bottom, Max(1, count));
    }

    /** Blank rows in `from ..< to`. */
    method BlankRowRange(from: nat, to: nat)
      requires from <= to <= |screen|
      modifies this`screen
      ensures |screen| == |old(screen)|
      ensures forall i :: 0 <= i < |screen| ==>
        (screen[i] == if from <= i < to then BlankRow(columns) else old(screen)[i])
    {
      for row := from to to
        invariant |screen| == |old(screen)|
        invariant forall i :: 0 <= i < |screen| ==>
          (screen[i] == if from <= i < row then BlankRow(columns) else old(screen)[i])
      {
        screen := screen[row := BlankRow(columns)];
      }
    }

    method EraseInDisplay(mode: nat)
      requires Valid()
      modifies this
      ensures Shown() == T.EraseInDisplay(old(Shown()), mode) && parser == old(parser)
      ensures Valid()
    {
      match mode {
        case 0 =>
          EraseInLine(0);
          BlankRowRange(cursor.row + 1, rows);
        case 1 =>
          EraseInLine(1);
          BlankRowRange(0, cursor.row);
        case _ =>
          if mode > 3 {
            return;
          }
          BlankRowRange(0, rows);
          if mode == 3 {
            scrolledOffRows := scrolledOffRows + |scrollback|;
            scrollback := [];
          }
      }
      cursor := cursor.(wrapPending := false);
      assert screen == T.EraseInDisplay(old(Shown()), mode).screen;
    }

    /** Blank cells of the cursor's row in `from ..< to`. */
    method BlankCells(from: nat, to: nat)
      requires Valid() && from <= to <= columns
      modifies this`screen
      ensures screen == old(screen)[cursor.row := Erased(old(screen)[cursor.row], from, to)]
      ensures Valid()
    {
      var row := screen[cursor.row];
      for column := from to to
        invariant row == Erased(screen[cursor.row], from, column)
      {
        row := row[column := SPACE];
      }
      screen := screen[cursor.row := row];
    }

    method EraseInLine(mode: nat)
      requires Valid()
      modifies this
      ensures Shown() == T.EraseInLine(old(Shown()), mode) && parser == old(parser)
      ensures Valid()
    {
      match mode {
        case 0 => BlankCells(cursor.column, columns);
        case 1 => BlankCells(0, Min(cursor.column, columns - 1) + 1);
        case 2 => screen := screen[cursor.row := BlankRow(columns)];
        case _ => return;
      }
      cursor := cursor.(wrapPending := false);
    }

    method InsertLines(count: nat)
      requires Valid()
      modifies this
      ensures Shown() == T.InsertLines(old(Shown()), count) && parser == old(parser)
      ensures Valid()
    {
      if cursor.row < region.top || cursor.row > region.bottom {
        return;
      }
      MoveDown(cursor.row, region.bottom, count);
      cursor := cursor.(column := 0, wrapPending := false);
    }

    method DeleteLines(count: nat)
      requires Valid()
      modifies this
      ensures Shown() == T.DeleteLines(old(Shown()), count) && parser == old(parser)
      ensures Valid()
    {
      if cursor.row < region.top || cursor.row > region.bottom {
        return;
      }
      MoveUp(cursor.row, region.bottom, count);
      cursor := cursor.(column := 0, wrapPending := false);
    }

    method InsertCharacters(count: nat)
      requires Valid()
      modifies this
      ensures Shown() == T.InsertCharacters(old(Shown()), count) && parser == old(parser)
      ensures Valid()
    {
      var cells := Min(count, columns - cursor.column);
      var row := screen[cursor.row];
      row := row[..columns - cells];
      row := row[..cursor.column] + seq(cells, _ => SPACE) + row[cursor.column..];
      assert row == ShiftRight(screen[cursor.row], cursor.column, count);
      screen := screen[cursor.row := row];
      cursor := cursor.(wrapPending := false);
    }

    method DeleteCharacters(count: nat)
      requires Valid()
      modifies this
      ensures Shown() == T.DeleteCharacters(old(Shown()), count) && parser == old(parser)
      ensures Valid()
    {
      var cells := Min(count, columns - cursor.column);
      var row := screen[cursor.row];
      row := row[..cursor.column] + row[cursor.column + cells..];
      row := row + seq(cells, _ => SPACE);
      assert row == ShiftLeft(screen[cursor.row], cursor.column, count);
      screen := screen[cursor.row := row];
      cursor := cursor.(wrapPending := false);
    }

    method EraseCharacters(count: nat)
      requires Valid()
      modifies this
      ensures Shown() == T.EraseCharacters(old(Shown()), count) && parser == old(parser)
      ensures Valid()
    {
      var end := Min(columns, cursor.column + count);
      if cursor.column >= end {
        return;
      }
      BlankCells(cursor.column, end);
      assert Erased(old(screen)[cursor.row], cursor.column, end)
          == Erased(old(screen)[cursor.row], cursor.column, cursor.column + count);
      cursor := cursor.(wrapPending := false);
    }

    // ------------------------------------------------------------ Output

    /** Everything kept and shown, as lines, and the lines of the two marks. */
    method Transcript() returns (lines: seq<Text>, outputStart: Option<nat>, promptStart: Option<nat>)
      requires Valid()
      ensures var texts := Texts(Buffer(Shown()));
              && lines == Lines(texts)
              && outputStart == MarkIndex(marks.outputStart, scrolledOffRows, Leading(texts), |lines|)
              && promptStart == MarkIndex(marks.promptStart, scrolledOffRows, Leading(texts), |lines|)
    {
      var leading;
      lines, leading := LinesOf(scrollback + screen);
      outputStart := MarkIndex(marks.outputStart, scrolledOffRows, leading, |lines|);
      promptStart := MarkIndex(marks.promptStart, scrolledOffRows, leading, |lines|);
    }

    /** `Lines` of a grid, and the number of its rows that come before them. */
    static method LinesOf(grid: Grid) returns (lines: seq<Text>, leadingBlank: nat)
      ensures lines == Lines(Texts(grid)) && leadingBlank == Leading(Texts(grid))
    {
      var texts := TextsOf(grid);
      lines, leadingBlank := DropBlankEnds(texts);
    }

    static method TextsOf(grid: Grid) returns (texts: seq<Text>)
      ensures texts == Texts(grid)
    {
      texts := [];
      for i := 0 to |grid|
        invariant |texts| == i && forall k :: 0 <= k < i ==> texts[k] == RowText(grid[k])
      {
        var text := TextOf(grid[i]);
        texts := texts + [text];
      }
    }

    static method DropBlankEnds(texts: seq<Text>) returns (lines: seq<Text>, leadingBlank: nat)
      ensures lines == Lines(texts) && leadingBlank == Leading(texts)
    {
      lines := texts;
      while lines != [] && lines[|lines| - 1] == []
        invariant WithoutTail(lines) == WithoutTail(texts)
      {
        lines := lines[..|lines| - 1];
      }
      ghost var kept := lines;
      leadingBlank := 0;
      while lines != [] && lines[0] == []
        invariant leadingBlank <= |kept| && lines == kept[leadingBlank..]
        invariant leadingBlank + LeadingBlank(lines) == LeadingBlank(kept)
      {
        lines := lines[1..];
        leadingBlank := leadingBlank + 1;
      }
    }

    static method TextOf(row: Row) returns (line: Text)
      ensures line == RowText(row)
    {
      line := Visible(row);
      while line != [] && (line[|line| - 1] == SPACE || line[|line| - 1] == TAB)
        invariant Trimmed(line) == RowText(row)
      {
        line := line[..|line| - 1];
      }
    }
  }
}
