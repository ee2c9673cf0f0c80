/**
 Double-width glyphs and their spacers: every spacer stands right of its
 wide glyph and every wide glyph that is not in the last column has its
 spacer. Everything keeps this but the edits that move or blank single
 cells, and those break it exactly when they cut a glyph in half.
 */
module WideGlyphs {
  import opened Bytes
  import opened Terminal
  import opened Wrappers
  import opened TerminalRuns
  import Utf8Input

  /** A cell whose character is two columns wide. */
  ghost predicate IsWide(u: Unicode, cell: Cell) { cell != [] && Width(u, cell[0]) == 2 }

  ghost predicate PairedAt(u: Unicode, row: Row, i: nat)
    requires i < |row|
  {
    && row[i] != []
    && (row[i] == SPACER ==> i > 0 && IsWide(u, row[i - 1]))
    && (IsWide(u, row[i]) && i + 1 < |row| ==> row[i + 1] == SPACER)
  }

  ghost predicate Paired(u: Unicode, row: Row)
  {
    forall i :: 0 <= i < |row| ==> PairedAt(u, row, i)
  }

  ghost predicate AllPaired(u: Unicode, g: Grid)
  {
    forall r :: 0 <= r < |g| ==> Paired(u, g[r])
  }

  /** On the screen, under the alternate one, and in the history. */
  ghost predicate DisplayPaired(u: Unicode, d: Display)
  {
    && AllPaired(u, d.screen) && AllPaired(u, d.log.history)
    && (d.saved.Some? ==> AllPaired(u, d.saved.value.screen))
  }

  // ---------------------------------------------------------------- Rows

  lemma BlankPaired(u: Unicode, columns: nat)
    ensures Paired(u, BlankRow(columns))
  {
  }

  /** Nothing decoded is taken for a spacer, U+0000. */
  lemma NoSpacerIsPrinted(bytes: seq<byte>)
    requires IsWholeSequence(bytes) && Decode(bytes).Some?
    ensures Decode(bytes).value >= 0x80
  {
  }

  lemma WrittenPairedAt(u: Unicode, row: Row, column: nat, s: Scalar, width: nat, i: nat)
    requires Paired(u, row) && column < |row| && i < |row|
    requires s > 0 && 1 <= width <= 2 && (width == 2 <==> Width(u, s) == 2)
    ensures PairedAt(u, Written(row, column, [s], width), i)
  {
    assert PairedAt(u, row, i) && PairedAt(u, row, column);
    assert !IsWide(u, SPACE) && !IsWide(u, SPACER) && [s] != SPACER;
    if i > 0 {
      assert PairedAt(u, row, i - 1);
    }
    if i + 1 < |row| {
      assert PairedAt(u, row, i + 1);
    }
  }

  lemma WrittenPaired(u: Unicode, row: Row, column: nat, s: Scalar, width: nat)
    requires Paired(u, row) && column < |row|
    requires s > 0 && 1 <= width <= 2 && (width == 2 <==> Width(u, s) == 2)
    ensures Paired(u, Written(row, column, [s], width))
  {
    forall i | 0 <= i < |row|
      ensures PairedAt(u, Written(row, column, [s], width), i)
    {
      WrittenPairedAt(u, row, column, s, width, i);
    }
  }

  /** A mark joins a character and changes neither its width nor its place. */
  lemma AttachPaired(u: Unicode, row: Row, column: nat, mark: Scalar)
    requires Paired(u, row) && column < |row| && row[column] != SPACER
    ensures Paired(u, row[column := row[column] + [mark]])
  {
    var r := row[column := row[column] + [mark]];
    forall i | 0 <= i < |r|
      ensures PairedAt(u, r, i)
    {
      assert PairedAt(u, row, i) && PairedAt(u, row, column);
      if i > 0 {
        assert PairedAt(u, row, i - 1);
      }
    }
  }

  /** Neither end of the cells blanked falls inside a glyph. */
  ghost predicate ErasesWholeGlyphs(row: Row, from: nat, to: nat)
    requires from < to <= |row|
  {
    row[from] != SPACER && (to < |row| ==> row[to] != SPACER)
  }

  lemma ErasedPaired(u: Unicode, row: Row, from: nat, to: nat)
    requires Paired(u, row) && from < to <= |row|
    ensures Paired(u, Erased(row, from, to)) <==> ErasesWholeGlyphs(row, from, to)
  {
    var r := Erased(row, from, to);
    if ErasesWholeGlyphs(row, from, to) {
      forall i | 0 <= i < |r|
        ensures PairedAt(u, r, i)
      {
        assert PairedAt(u, row, i);
        if i + 1 < |row| {
          assert PairedAt(u, row, i + 1);
        }
      }
    } else if row[from] == SPACER {
      assert PairedAt(u, row, from);
      assert !PairedAt(u, r, from - 1);
    } else {
      assert !PairedAt(u, r, to);
    }
  }

  lemma ShiftRightPaired(u: Unicode, row: Row, column: nat, n: nat)
    requires Paired(u, row) && column < |row| && n >= 1
    ensures Paired(u, ShiftRight(row, column, n)) <==> row[column] != SPACER
  {
    var r := ShiftRight(row, column, n);
    if row[column] == SPACER {
      assert PairedAt(u, row, column);
      assert !PairedAt(u, r, column - 1);
    } else {
      forall i | 0 <= i < |r|
        ensures PairedAt(u, r, i)
      {
        assert PairedAt(u, row, i);
        if i >= column + n {
          assert PairedAt(u, row, i - n);
        }
      }
    }
  }

  /** What DCH at `column` needs: the cells before it and the ones that move
      up to it are cut alike, and no wide glyph leaves the last column, where
      it stood without a spacer. */
  ghost predicate DeletesWholeGlyphs(u: Unicode, row: Row, column: nat, n: nat)
    requires column < |row|
  {
    && (row[column] == SPACER <==> column + n < |row| && row[column + n] == SPACER)
    && !(column + n < |row| && IsWide(u, row[|row| - 1]))
  }

  lemma WholeDeletionKeepsPairs(u: Unicode, row: Row, column: nat, n: nat)
    requires Paired(u, row) && column < |row| && n >= 1 && DeletesWholeGlyphs(u, row, column, n)
    ensures Paired(u, ShiftLeft(row, column, n))
  {
    var r := ShiftLeft(row, column, n);
    forall i | 0 <= i < |r|
      ensures PairedAt(u, r, i)
    {
      assert PairedAt(u, row, i);
      if column <= i && i + n < |row| {
        assert PairedAt(u, row, i + n);
      }
    }
  }

  lemma CutDeletionBreaksAPair(u: Unicode, row: Row, column: nat, n: nat)
    requires Paired(u, row) && column < |row| && n >= 1 && !DeletesWholeGlyphs(u, row, column, n)
    ensures !Paired(u, ShiftLeft(row, column, n))
  {
    var r := ShiftLeft(row, column, n);
    assert PairedAt(u, row, column);
    if column + n < |row| && IsWide(u, row[|row| - 1]) {
      assert r[|row| - 1 - n] == row[|row| - 1] && r[|row| - n] == SPACE;
      assert !PairedAt(u, r, |row| - 1 - n);
    } else if row[column] == SPACER {
      assert !PairedAt(u, r, column - 1);
    } else {
      if column > 0 {
        assert PairedAt(u, row, column - 1);
      }
      assert !PairedAt(u, r, column);
    }
  }

  lemma ShiftLeftPaired(u: Unicode, row: Row, column: nat, n: nat)
    requires Paired(u, row) && column < |row| && n >= 1
    ensures Paired(u, ShiftLeft(row, column, n)) <==> DeletesWholeGlyphs(u, row, column, n)
  {
    if DeletesWholeGlyphs(u, row, column, n) {
      WholeDeletionKeepsPairs(u, row, column, n);
    } else {
      CutDeletionBreaksAPair(u, row, column, n);
    }
  }

  // --------------------------------------------------------------- Steps

  /** Whether a byte keeps the pairs: true of all but the final bytes of
      `@`, `P`, `X`, and of `J` and `K` with parameter 0 or 1, and true of
      those when the cells they cut between are not halves of one glyph. */
  ghost predicate KeepsPairs(u: Unicode, p: Parser, d: Display, b: byte)
    requires ParserOk(p) && DisplayOk(d)
  {
    EndsSequence(p, b) && ParseSequence(p.csi).Public? ==> EditKeepsPairs(u, d, ParseSequence(p.csi).parameters, b)
  }

  ghost predicate EditKeepsPairs(u: Unicode, d: Display, n: seq<int>, final: byte)
    requires DisplayOk(d) && ParametersOk(n)
  {
    var (row, column, count, mode) := (CurrentRow(d), d.cursor.column, Parameter(n, 0, 1), RawParameter(n, 0));
    if final == 0x40 then row[column] != SPACER
    else if final == 0x50 then DeletesWholeGlyphs(u, row, column, count)
    else if final == 0x58 then ErasesWholeGlyphs(row, column, Min(column + count, |row|))
    else if (final == 0x4A || final == 0x4B) && mode == 0 then ErasesWholeGlyphs(row, column, |row|)
    else if (final == 0x4A || final == 0x4B) && mode == 1 then ErasesWholeGlyphs(row, 0, column + 1)
    else true
  }

  lemma RowPaired(u: Unicode, d: Display, row: Row)
    requires DisplayOk(d) && DisplayPaired(u, d) && |row| == d.size.columns
    ensures DisplayPaired(u, WithRow(d, row)) <==> Paired(u, row)
    ensures DisplayPaired(u, Edited(d, row)) <==> Paired(u, row)
  {
    var g := d.screen[d.cursor.row := row];
    assert g[d.cursor.row] == row;
    assert AllPaired(u, g) <==> Paired(u, row);
  }

  lemma ScrollPaired(u: Unicode, d: Display, n: nat)
    requires DisplayOk(d) && DisplayPaired(u, d)
    ensures DisplayPaired(u, ScrollUp(d, n)) && DisplayPaired(u, ScrollDown(d, n))
    ensures DisplayPaired(u, InsertLines(d, n)) && DisplayPaired(u, DeleteLines(d, n))
  {
    BlankPaired(u, d.size.columns);
  }

  lemma IndexPaired(u: Unicode, d: Display)
    requires DisplayOk(d) && DisplayPaired(u, d)
    ensures DisplayPaired(u, Index(d)) && DisplayPaired(u, ReverseIndex(d))
  {
    ScrollPaired(u, d, 1);
  }

  lemma NextLinePaired(u: Unicode, d: Display)
    requires DisplayOk(d) && DisplayPaired(u, d)
    ensures DisplayPaired(u, NextLine(d))
  {
    IndexPaired(u, At(d, d.cursor.row, 0));
  }

  lemma PutPaired(u: Unicode, d: Display, s: Scalar, width: nat)
    requires DisplayOk(d) && DisplayPaired(u, d)
    requires s > 0 && 1 <= width <= 2 && (width == 2 <==> Width(u, s) == 2)
    ensures DisplayPaired(u, Put(d, [s], width))
  {
    WrittenPaired(u, CurrentRow(d), d.cursor.column, s, width);
    RowPaired(u, d, Written(CurrentRow(d), d.cursor.column, [s], width));
  }

  lemma PlacePaired(u: Unicode, d: Display, s: Scalar, width: nat)
    requires DisplayOk(d) && DisplayPaired(u, d)
    requires s > 0 && 1 <= width <= 2 && (width == 2 <==> Width(u, s) == 2)
    ensures DisplayPaired(u, Place(d, [s], width))
  {
    NextLinePaired(u, d);
    var w := if d.cursor.wrapPending && d.autoWrap then NextLine(d) else d;
    NextLinePaired(u, w);
    PutPaired(u, w, s, width);
    PutPaired(u, NextLine(w), s, width);
  }

  lemma EmitPaired(u: Unicode, d: Display, s: Scalar)
    requires DisplayOk(d) && DisplayPaired(u, d) && s > 0
    ensures DisplayPaired(u, Emit(u, d, s))
  {
    if Width(u, s) > 0 {
      PlacePaired(u, d, s, Width(u, s));
    } else {
      var row := CurrentRow(d);
      var c := BaseColumn(row, if d.cursor.wrapPending then d.cursor.column else d.cursor.column - 1);
      if c >= 0 {
        AttachPaired(u, row, c, s);
        RowPaired(u, d, row[c := row[c] + [s]]);
      }
    }
  }

  lemma ActPaired(u: Unicode, d: Display, b: byte)
    requires DisplayOk(d) && DisplayPaired(u, d)
    ensures DisplayPaired(u, Act(d, b))
  {
    IndexPaired(u, d);
    if 0x20 <= b < 0x7F {
      PlacePaired(u, d, b, 1);
    }
  }

  lemma {:induction false} ModesPaired(u: Unicode, d: Display, modes: seq<int>, enabled: bool)
    requires DisplayOk(d) && DisplayPaired(u, d)
    ensures DisplayPaired(u, SetPrivateModes(d, modes, enabled))
    decreases |modes|
  {
    if modes != [] {
      BlankPaired(u, d.size.columns);
      ModesPaired(u, SetPrivateMode(d, modes[0], enabled), modes[1..], enabled);
    }
  }

  lemma DisplayErasePaired(u: Unicode, d: Display, mode: nat)
    requires DisplayOk(d) && DisplayPaired(u, d)
    ensures DisplayPaired(u, EraseInDisplay(d, mode)) <==>
      (mode < 2 ==> Paired(u, ErasedRow(d, mode, d.cursor.row)))
  {
    BlankPaired(u, d.size.columns);
    if mode <= 3 {
      var r := EraseInDisplay(d, mode);
      assert r.screen[d.cursor.row] == ErasedRow(d, mode, d.cursor.row);
      assert forall i :: 0 <= i < d.size.rows && (i != d.cursor.row || mode >= 2) ==> Paired(u, r.screen[i]);
    }
  }

  lemma ErasePairs(u: Unicode, d: Display, mode: nat)
    requires DisplayOk(d) && DisplayPaired(u, d)
    ensures var row := CurrentRow(d);
            var whole := (mode == 0 ==> ErasesWholeGlyphs(row, d.cursor.column, |row|))
                      && (mode == 1 ==> ErasesWholeGlyphs(row, 0, d.cursor.column + 1));
            && (DisplayPaired(u, EraseInDisplay(d, mode)) <==> whole)
            && (DisplayPaired(u, EraseInLine(d, mode)) <==> whole)
  {
    var row, column := CurrentRow(d), d.cursor.column;
    assert Paired(u, row);
    DisplayErasePaired(u, d, mode);
    if mode == 0 {
      ErasedPaired(u, row, column, |row|);
      RowPaired(u, d, Erased(row, column, |row|));
    } else if mode == 1 {
      ErasedPaired(u, row, 0, column + 1);
      RowPaired(u, d, Erased(row, 0, column + 1));
    } else {
      BlankPaired(u, d.size.columns);
      RowPaired(u, d, BlankRow(d.size.columns));
    }
  }

  lemma CellPairs(u: Unicode, d: Display, count: nat)
    requires DisplayOk(d) && DisplayPaired(u, d) && count >= 1
    ensures var row, column := CurrentRow(d), d.cursor.column;
            && (DisplayPaired(u, InsertCharacters(d, count)) <==> row[column] != SPACER)
            && (DisplayPaired(u, DeleteCharacters(d, count)) <==> DeletesWholeGlyphs(u, row, column, count))
            && (DisplayPaired(u, EraseCharacters(d, count))
                <==> ErasesWholeGlyphs(row, column, Min(column + count, |row|)))
  {
    var row, column := CurrentRow(d), d.cursor.column;
    assert Paired(u, row);
    ShiftRightPaired(u, row, column, count);
    RowPaired(u, d, ShiftRight(row, column, count));
    ShiftLeftPaired(u, row, column, count);
    RowPaired(u, d, ShiftLeft(row, column, count));
    ErasedPaired(u, row, column, Min(column + count, |row|));
    assert Erased(row, column, Min(column + count, |row|)) == Erased(row, column, column + count);
    RowPaired(u, d, Erased(row, column, column + count));
  }

  lemma MovePaired(u: Unicode, d: Display, n: seq<int>, final: byte)
    requires DisplayOk(d) && DisplayPaired(u, d) && ParametersOk(n)
    ensures DisplayPaired(u, MoveCursor(d, n, final))
  {
  }

  lemma EditPairs(u: Unicode, d: Display, n: seq<int>, final: byte)
    requires DisplayOk(d) && DisplayPaired(u, d) && ParametersOk(n)
    ensures DisplayPaired(u, ApplyPublic(d, n, final)) <==> EditKeepsPairs(u, d, n, final)
  {
    var count := Parameter(n, 0, 1);
    if MovesCursor(final) {
      MovePaired(u, d, n, final);
    } else if final == 0x4A || final == 0x4B {
      ErasePairs(u, d, RawParameter(n, 0));
    } else if final == 0x40 || final == 0x50 || final == 0x58 {
      CellPairs(u, d, count);
    } else {
      OtherEditsPair(u, d, n, final);
    }
  }

  /** Whole lines, whole regions, the cursor: no pair is cut. */
  lemma OtherEditsPair(u: Unicode, d: Display, n: seq<int>, final: byte)
    requires DisplayOk(d) && DisplayPaired(u, d) && ParametersOk(n) && !MovesCursor(final)
    requires final !in [0x4A, 0x4B, 0x40, 0x50, 0x58]
    ensures DisplayPaired(u, ApplyPublic(d, n, final))
  {
    ScrollPaired(u, d, Parameter(n, 0, 1));
  }

  /** One byte keeps every pair if and only if it is not one of the cell
      edits cutting a glyph in half. */
  lemma StepPairs(u: Unicode, p: Parser, d: Display, b: byte)
    requires ParserOk(p) && DisplayOk(d) && DisplayPaired(u, d)
    ensures DisplayPaired(u, NextDisplay(u, p, d, b)) <==> KeepsPairs(u, p, d, b)
  {
    match p.state {
      case Ground =>
        if p.pendingLength == 0 || !IsContinuation(b) {
          ActPaired(u, d, b);
        } else if |p.pending| + 1 == p.pendingLength && Decode(p.pending + [b]).Some? {
          EmitPaired(u, d, Decode(p.pending + [b]).value);
        }
      case Escape =>
        IndexPaired(u, d);
        NextLinePaired(u, d);
        BlankPaired(u, d.size.columns);
      case Csi =>
        if !(0x20 <= b <= 0x7E) {
          ActPaired(u, d, b);
        } else if b >= 0x40 {
          match ParseSequence(p.csi) {
            case Ignored =>
            case Private(n) =>
              ModesPaired(u, d, n, true);
              ModesPaired(u, d, n, false);
            case Public(n) => EditPairs(u, d, n, b);
          }
        }
      case _ =>
    }
  }

  /** Every byte of the run keeps the pairs where it is executed. */
  ghost predicate RunKeepsPairs(u: Unicode, t: Term, bytes: seq<byte>)
    requires Ok(t)
    decreases |bytes|
  {
    bytes != [] ==>
      KeepsPairs(u, t.parser, t.display, bytes[0]) && RunKeepsPairs(u, Consume(u, t, bytes[0]), bytes[1..])
  }

  /** The pairs in every state of the run, the first and the last included. */
  ghost predicate AlwaysPaired(u: Unicode, t: Term, bytes: seq<byte>)
    requires Ok(t)
  {
    forall i :: 0 <= i <= |bytes| ==> DisplayPaired(u, Feed(u, t, bytes[..i]).display)
  }

  lemma FeedFirst(u: Unicode, t: Term, bytes: seq<byte>, i: nat)
    requires Ok(t) && 0 < i <= |bytes|
    ensures Feed(u, t, bytes[..i]) == Feed(u, Consume(u, t, bytes[0]), bytes[1..][..i - 1])
  {
    assert bytes[..i][1..] == bytes[1..][..i - 1];
  }

  lemma AlwaysPairedUnfolds(u: Unicode, t: Term, bytes: seq<byte>)
    requires Ok(t) && bytes != []
    ensures AlwaysPaired(u, t, bytes)
       <==> DisplayPaired(u, t.display) && AlwaysPaired(u, Consume(u, t, bytes[0]), bytes[1..])
  {
    var next := Consume(u, t, bytes[0]);
    assert Feed(u, t, bytes[..0]) == t;
    if AlwaysPaired(u, t, bytes) {
      forall i | 0 <= i <= |bytes[1..]|
        ensures DisplayPaired(u, Feed(u, next, bytes[1..][..i]).display)
      {
        FeedFirst(u, t, bytes, i + 1);
      }
    }
    if DisplayPaired(u, t.display) && AlwaysPaired(u, next, bytes[1..]) {
      forall i | 0 < i <= |bytes|
        ensures DisplayPaired(u, Feed(u, t, bytes[..i]).display)
      {
        FeedFirst(u, t, bytes, i);
      }
    }
  }

  /** A run is paired throughout if and only if each of its bytes keeps the
      pairs where it is executed. */
  lemma {:induction false} RunPairs(u: Unicode, t: Term, bytes: seq<byte>)
    requires Ok(t) && DisplayPaired(u, t.display)
    ensures AlwaysPaired(u, t, bytes) <==> RunKeepsPairs(u, t, bytes)
    decreases |bytes|
  {
    if bytes == [] {
      assert bytes[..0] == [];
    } else {
      var next := Consume(u, t, bytes[0]);
      StepPairs(u, t.parser, t.display, bytes[0]);
      AlwaysPairedUnfolds(u, t, bytes);
      if DisplayPaired(u, next.display) {
        RunPairs(u, next, bytes[1..]);
      } else {
        assert Feed(u, next, bytes[1..][..0]) == next;
      }
    }
  }

  /** From a fresh terminal the glyphs are paired all along just when no byte
      cuts one. */
  lemma FreshTerminalStaysPaired(u: Unicode, columns: nat, rows: nat, bytes: seq<byte>)
    ensures AlwaysPaired(u, Init(columns, rows), bytes) <==> RunKeepsPairs(u, Init(columns, rows), bytes)
    ensures RunKeepsPairs(u, Init(columns, rows), bytes)
        ==> DisplayPaired(u, Feed(u, Init(columns, rows), bytes).display)
  {
    BlankPaired(u, Max(1, columns));
    RunPairs(u, Init(columns, rows), bytes);
    assert bytes[..|bytes|] == bytes;
  }

  // ---------------------------------------------------------- A glyph cut

  const GLYPH: seq<byte> := [0xE4, 0xB8, 0x80]

  /** The three bytes of U+4E00 fill a row of two columns. */
  lemma GlyphFillsTheRow(u: Unicode)
    requires !u.isMark(0x4E00)
    ensures var t := Feed(u, Init(2, 1), GLYPH);
            && t.parser == Parser(Ground, [], [], [], 0) && t.display.screen == [[[0x4E00], SPACER]]
            && t.display.cursor == Cursor(0, 1, true)
  {
    Utf8Input.PrefixIsGathered(u, Init(2, 1), GLYPH[..2]);
    FeedInTwo(u, Init(2, 1), GLYPH[..2], [0x80]);
    assert GLYPH[..2] + [0x80] == GLYPH;
    LastByteOfGlyph(u, Feed(u, Init(2, 1), GLYPH[..2]));
  }

  lemma LastByteOfGlyph(u: Unicode, t: Term)
    requires !u.isMark(0x4E00) && t == Init(2, 1).(parser := Parser(Ground, [], [], [0xE4, 0xB8], 3))
    ensures Ok(t)
    ensures var r := Feed(u, t, [0x80]);
            && r.parser == Parser(Ground, [], [], [], 0) && r.display.screen == [[[0x4E00], SPACER]]
            && r.display.cursor == Cursor(0, 1, true)
  {
    assert Feed(u, t, [0x80]) == Consume(u, t, 0x80);
    assert [0xE4, 0xB8] + [0x80] == GLYPH && Decode(GLYPH) == Some(0x4E00);
    assert Written(t.display.screen[0], 0, [0x4E00], 2) == [[0x4E00], SPACER];
  }

  /** ECH on a parameterless sequence erases the one cell at the cursor. */
  lemma EraseOneCell(u: Unicode, t: Term)
    requires Ok(t) && t.parser == Parser(Ground, [], [], [], 0)
    ensures Feed(u, t, [0x1B, 0x5B] + [0x58]).display == EraseCharacters(t.display, 1)
  {
    IntroducerBytes(u, t);
    FeedInTwo(u, t, [0x1B, 0x5B], [0x58]);
    var s := Feed(u, t, [0x1B, 0x5B]);
    assert Feed(u, s, [0x58]) == Consume(u, s, 0x58);
  }

  /** Bytes that do cut one: a wide glyph in a row it fills, and the cell at
      the cursor, which is its right half, erased. */
  lemma EraseCutsAGlyph(u: Unicode)
    requires !u.isMark(0x4E00)
    ensures !DisplayPaired(u, Feed(u, Init(2, 1), GLYPH + ([0x1B, 0x5B] + [0x58])).display)
  {
    GlyphFillsTheRow(u);
    var t := Feed(u, Init(2, 1), GLYPH);
    FeedInTwo(u, Init(2, 1), GLYPH, [0x1B, 0x5B] + [0x58]);
    EraseOneCell(u, t);
    var row := EraseCharacters(t.display, 1).screen[0];
    assert row == [[0x4E00], SPACE];
    assert !PairedAt(u, row, 0);
  }
}
