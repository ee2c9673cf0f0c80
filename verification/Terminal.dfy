/**
 The terminal as a mathematical value: what one byte of output does to the
 grid, the cursor, the history and the parser. History is kept whole here —
 every line that ever scrolled off the primary screen, in order — with
 `scrolledOff` saying how many of its first lines the renderer has let go.
 Grid operations are given pointwise; ScreenRenderer performs them as range
 removals, insertions and loops, and is proved to agree.
 */
module Terminal {
  import opened Bytes
  import opened Wrappers

  /** A Unicode scalar value: no surrogates, nothing past U+10FFFF. */
  type Scalar = s: int | 0 <= s < 0xD800 || 0xE000 <= s <= 0x10FFFF

  /** One grid cell: the scalars of the character in it. */
  type Cell = seq<Scalar>
  type Row = seq<Cell>
  type Grid = seq<Row>

  const SPACE: Cell := [0x20]
  const TAB: Cell := [0x09]
  /** What stands in the cell to the right of a wide glyph. */
  const SPACER: Cell := [0x00]
  const SCROLLBACK_LIMIT := 20000
  const MAXIMUM_PARAMETER := 65535

  /** What the renderer asks of the Unicode tables: whether a scalar's
      category is nonspacing mark, enclosing mark or format, and whether a
      mark forms one character with what is already in a cell. */
  datatype Unicode = Unicode(isMark: Scalar -> bool, joins: (Cell, Scalar) -> bool)

  predicate InWideRange(s: Scalar)
  {
    || 0x1100 <= s <= 0x115F || 0x2E80 <= s <= 0x303E || 0x3041 <= s <= 0x33FF || 0x3400 <= s <= 0x4DBF
    || 0x4E00 <= s <= 0x9FFF || 0xA000 <= s <= 0xA4CF || 0xA960 <= s <= 0xA97F || 0xAC00 <= s <= 0xD7A3
    || 0xF900 <= s <= 0xFAFF || 0xFE10 <= s <= 0xFE19 || 0xFE30 <= s <= 0xFE6F || 0xFF00 <= s <= 0xFF60
    || 0xFFE0 <= s <= 0xFFE6 || 0x1F300 <= s <= 0x1F64F || 0x1F680 <= s <= 0x1F6FF || 0x1F900 <= s <= 0x1F9FF
    || 0x20000 <= s <= 0x2FFFD || 0x30000 <= s <= 0x3FFFD
  }

  /** How many cells a scalar takes up. */
  function Width(u: Unicode, s: Scalar): (width: nat)
    ensures width <= 2
    ensures s < 0x1100 ==> width <= 1
  {
    if u.isMark(s) then (if s == 0xAD then 1 else 0)
    else if InWideRange(s) then 2
    else 1
  }

  datatype Position = Position(row: nat, column: nat)

  /** Where the next character goes; `wrapPending` once the last column was
      written and the move to the next line is still owed. */
  datatype Cursor = Cursor(row: nat, column: nat, wrapPending: bool)

  /** The scroll region, `top ..= bottom`. */
  datatype Region = Region(top: nat, bottom: nat)

  datatype Size = Size(columns: nat, rows: nat)

  /** The primary screen while the alternate one is up. */
  datatype Saved = Saved(screen: Grid, cursor: Position, usesCursor: bool)

  /** Where a program last said its output, and the shell its prompt, begins:
      rows numbered from the first ever. */
  datatype Marks = Marks(outputStart: Option<nat>, promptStart: Option<nat>)

  /** The lines that left the primary screen, how many of the first are no
      longer kept, and the marks. */
  datatype Log = Log(history: seq<Row>, scrolledOff: nat, marks: Marks)

  datatype Display = Display(
    size: Size, screen: Grid, cursor: Cursor, savedCursor: Position, region: Region,
    autoWrap: bool, saved: Option<Saved>, log: Log)

  datatype State = Ground | Escape | Csi | OperatingSystemCommand | IgnoredString | StringEscape | Charset

  datatype Parser = Parser(state: State, csi: seq<byte>, osc: seq<byte>, pending: seq<byte>, pendingLength: nat)

  datatype Term = Term(display: Display, parser: Parser)

  ghost predicate IsGrid(g: Grid, size: Size)
  {
    |g| == size.rows && AllOfWidth(g, size.columns)
  }

  ghost predicate AllOfWidth(g: Grid, columns: nat)
  {
    forall r :: 0 <= r < |g| ==> |g[r]| == columns
  }

  /** Everything Swift's range and index operations rely on. */
  ghost predicate Ok(t: Term)
  {
    DisplayOk(t.display) && ParserOk(t.parser)
  }

  ghost predicate DisplayOk(d: Display)
  {
    && 1 <= d.size.columns && 1 <= d.size.rows
    && IsGrid(d.screen, d.size)
    && d.cursor.row < d.size.rows && d.cursor.column < d.size.columns
    && Inside(d.savedCursor, d.size)
    && RegionOk(d.region, d.size.rows)
    && (d.saved.Some? ==> IsGrid(d.saved.value.screen, d.size) && Inside(d.saved.value.cursor, d.size))
    && LogOk(d.log, d.size.rows)
  }

  predicate Inside(p: Position, size: Size) { p.row < size.rows && p.column < size.columns }

  /** At least two lines, or the whole screen. */
  predicate RegionOk(r: Region, rows: nat)
  {
    r.bottom < rows && (r.top < r.bottom || (r.top == 0 && r.bottom == rows - 1))
  }

  /** No more lines are kept than the cap, and every mark is a line of the
      history or of the screen. */
  predicate LogOk(l: Log, rows: nat)
  {
    && l.scrolledOff <= |l.history| <= l.scrolledOff + SCROLLBACK_LIMIT
    && (l.marks.outputStart.Some? ==> l.marks.outputStart.value < |l.history| + rows)
    && (l.marks.promptStart.Some? ==> l.marks.promptStart.value < |l.history| + rows)
  }

  /** Bounded buffers; a pending sequence only in the ground state, shorter
      than its lead byte announced. */
  predicate ParserOk(p: Parser)
  {
    && |p.csi| <= 64 && |p.osc| <= 8
    && (p.pendingLength == 0 ==> p.pending == [])
    && (p.pendingLength > 0 ==>
          p.state.Ground? && IsPrefixOfSequence(p.pending) && p.pendingLength == LeadLength(p.pending[0]))
  }

  /** A lead byte and continuations, not yet as many as announced. */
  predicate IsPrefixOfSequence(bytes: seq<byte>)
  {
    && 1 <= |bytes| < LeadLength(bytes[0])
    && forall i :: 1 <= i < |bytes| ==> IsContinuation(bytes[i])
  }

  /** A lead byte and as many continuations as it announced. */
  predicate IsWholeSequence(bytes: seq<byte>)
  {
    && 2 <= |bytes| <= 4 && LeadLength(bytes[0]) == |bytes|
    && forall i :: 1 <= i < |bytes| ==> IsContinuation(bytes[i])
  }

  predicate IsContinuation(b: byte) { 0x80 <= b < 0xC0 }

  /** The length a lead byte announces; 0 for a byte that starts nothing. */
  function LeadLength(b: byte): nat
  {
    if 0xC0 <= b < 0xE0 then 2 else if 0xE0 <= b < 0xF0 then 3 else if 0xF0 <= b < 0xF8 then 4 else 0
  }

  function Init(columns: nat, rows: nat): (t: Term)
    ensures Ok(t)
  {
    var size := Size(Max(1, columns), Max(1, rows));
    Term(Display(size, BlankScreen(size), Cursor(0, 0, false), Position(0, 0), Region(0, size.rows - 1),
                 true, None, Log([], 0, Marks(None, None))),
         Parser(Ground, [], [], [], 0))
  }

  // ---------------------------------------------------------------- Input

  function Feed(u: Unicode, t: Term, bytes: seq<byte>): (r: Term)
    requires Ok(t)
    ensures Ok(r)
    decreases |bytes|
  {
    if bytes == [] then t else Feed(u, Consume(u, t, bytes[0]), bytes[1..])
  }

  /** One byte. Where the parser goes depends on the parser alone. */
  function Consume(u: Unicode, t: Term, b: byte): (r: Term)
    requires Ok(t)
    ensures Ok(r)
  {
    Term(NextDisplay(u, t.parser, t.display, b), NextParser(t.parser, b))
  }

  function NextParser(p: Parser, b: byte): (r: Parser)
    requires ParserOk(p)
    ensures ParserOk(r)
  {
    match p.state
    case Ground => GroundParser(p, b)
    case Escape => EscapeParser(p, b)
    case Csi =>
      if 0x40 <= b <= 0x7E then p.(csi := [], state := Ground)
      else if 0x20 <= b <= 0x3F then (if |p.csi| < 64 then p.(csi := p.csi + [b]) else p)
      else GroundParser(p.(csi := [], state := Ground), b)
    case OperatingSystemCommand =>
      if b == 0x07 then p.(osc := [], state := Ground)
      else if b == 0x1B then p.(osc := [], state := StringEscape)
      else if |p.osc| < 8 then p.(osc := p.osc + [b]) else p
    case IgnoredString => if b == 0x1B then p.(state := StringEscape) else p
    case StringEscape =>
      p.(state := if b == 0x5C then Ground else if b == 0x1B then StringEscape else IgnoredString)
    case Charset => p.(state := Ground)
  }

  function GroundParser(p: Parser, b: byte): (r: Parser)
    requires ParserOk(p) && p.state.Ground?
    ensures ParserOk(r)
  {
    if p.pendingLength > 0 && IsContinuation(b) then
      if |p.pending| + 1 == p.pendingLength then p.(pending := [], pendingLength := 0)
      else p.(pending := p.pending + [b])
    else if b == 0x1B then p.(pending := [], pendingLength := 0, state := Escape)
    else if LeadLength(b) > 0 then p.(pending := [b], pendingLength := LeadLength(b))
    else p.(pending := [], pendingLength := 0)
  }

  function EscapeParser(p: Parser, b: byte): (r: Parser)
    requires ParserOk(p) && p.state.Escape?
    ensures ParserOk(r)
  {
    if b == 0x5B then p.(csi := [], state := Csi)
    else if b == 0x5D then p.(osc := [], state := OperatingSystemCommand)
    else if b == 0x50 || b == 0x58 || b == 0x5E || b == 0x5F then p.(state := IgnoredString)
    else if 0x28 <= b <= 0x2B then p.(state := Charset)
    else p.(state := Ground)
  }

  function NextDisplay(u: Unicode, p: Parser, d: Display, b: byte): (r: Display)
    requires ParserOk(p) && DisplayOk(d)
    ensures DisplayOk(r)
  {
    match p.state
    case Ground =>
      if p.pendingLength == 0 || !IsContinuation(b) then Act(d, b)
      else if |p.pending| + 1 == p.pendingLength then EmitBytes(u, d, p.pending + [b])
      else d
    case Escape => EscapeAction(d, b)
    case Csi =>
      if 0x40 <= b <= 0x7E then ApplyControlSequence(d, p.csi, b)
      else if 0x20 <= b <= 0x3F then d
      else Act(d, b)
    case OperatingSystemCommand =>
      if b == 0x07 || b == 0x1B then ApplyOperatingSystemCommand(d, p.osc) else d
    case _ => d
  }

  /** A byte that begins something, in the ground state. */
  function Act(d: Display, b: byte): (r: Display)
    requires DisplayOk(d)
    ensures DisplayOk(r)
  {
    if b == 0x08 then At(d, d.cursor.row, Max(0, d.cursor.column - 1))
    else if b == 0x09 then At(d, d.cursor.row, Min(d.size.columns - 1, (d.cursor.column / 8 + 1) * 8))
    else if b == 0x0A || b == 0x0B || b == 0x0C then Index(d)
    else if b == 0x0D then At(d, d.cursor.row, 0)
    else if 0x20 <= b < 0x7F then Place(d, [b], 1)
    else d
  }

  function Payload(b: byte): nat
    requires IsContinuation(b)
  {
    b - 0x80
  }

  /** The value the payload bits of a whole sequence spell. */
  function Assemble(bytes: seq<byte>): (v: nat)
    requires IsWholeSequence(bytes)
  {
    if |bytes| == 2 then 0x40 * (bytes[0] - 0xC0) + Payload(bytes[1])
    else if |bytes| == 3 then 0x1000 * (bytes[0] - 0xE0) + 0x40 * Payload(bytes[1]) + Payload(bytes[2])
    else 0x40000 * (bytes[0] - 0xF0) + 0x1000 * Payload(bytes[1]) + 0x40 * Payload(bytes[2]) + Payload(bytes[3])
  }

  /** The scalar of which these bytes are the encoding, if there is one: a
      number in range, outside U+D800 to U+DFFF, that needs this many bytes. */
  function Decode(bytes: seq<byte>): (s: Option<Scalar>)
    requires IsWholeSequence(bytes)
  {
    var v := Assemble(bytes);
    if v < (if |bytes| == 2 then 0x80 else if |bytes| == 3 then 0x800 else 0x10000) then None
    else if 0xD800 <= v < 0xE000 || v > 0x10FFFF then None
    else Some(v)
  }

  function EmitBytes(u: Unicode, d: Display, bytes: seq<byte>): (r: Display)
    requires DisplayOk(d) && IsWholeSequence(bytes)
    ensures DisplayOk(r)
  {
    match Decode(bytes)
    case None => d
    case Some(s) => Emit(u, d, s)
  }

  /** A decoded scalar reaches the grid. */
  function Emit(u: Unicode, d: Display, s: Scalar): (r: Display)
    requires DisplayOk(d)
    ensures DisplayOk(r)
  {
    if Width(u, s) == 0 then AttachCombining(u, d, s) else Place(d, [s], Width(u, s))
  }

  function EscapeAction(d: Display, b: byte): (r: Display)
    requires DisplayOk(d)
    ensures DisplayOk(r)
  {
    if b == 0x37 then SaveCursor(d)
    else if b == 0x38 then At(d, d.savedCursor.row, d.savedCursor.column)
    else if b == 0x44 then Index(d)
    else if b == 0x45 then NextLine(d)
    else if b == 0x4D then ReverseIndex(d)
    else if b == 0x63 then Reset(d)
    else d
  }

  /** The cursor at a cell, owing no wrap. */
  function At(d: Display, row: nat, column: nat): (r: Display)
    requires DisplayOk(d) && row < d.size.rows && column < d.size.columns
    ensures DisplayOk(r)
  {
    d.(cursor := Cursor(row, column, false))
  }

  function SaveCursor(d: Display): (r: Display)
    requires DisplayOk(d)
    ensures DisplayOk(r)
  {
    d.(savedCursor := Position(d.cursor.row, d.cursor.column))
  }

  // ---------------------------------------------------- Control sequences

  /** The signed decimal number `digits` spell, as a 64-bit Int reads it;
      nothing when they spell none or it does not fit. */
  function ParseInt(digits: seq<byte>): (v: Option<int>)
  {
    if digits == [] then None
    else if digits[0] == 0x2B then
      (if AllDigits(digits[1..]) && digits[1..] != [] then Fit(Decimal(digits[1..])) else None)
    else if digits[0] == 0x2D then
      (if AllDigits(digits[1..]) && digits[1..] != [] then Fit(-Decimal(digits[1..])) else None)
    else if AllDigits(digits) then Fit(Decimal(digits)) else None
  }

  function Fit(v: int): Option<int>
  {
    if -0x8000_0000_0000_0000 <= v <= 0x7FFF_FFFF_FFFF_FFFF then Some(v) else None
  }

  predicate AllDigits(digits: seq<byte>)
  {
    forall i :: 0 <= i < |digits| ==> 0x30 <= digits[i] <= 0x39
  }

  function Decimal(digits: seq<byte>): (v: int)
    requires AllDigits(digits)
    ensures v >= 0
  {
    if digits == [] then 0 else 10 * Decimal(digits[..|digits| - 1]) + (digits[|digits| - 1] - 0x30)
  }

  function DropIntermediates(body: seq<byte>): (r: seq<byte>)
    ensures forall i :: 0 <= i < |r| ==> !(0x20 <= r[i] <= 0x2F)
  {
    if body == [] then []
    else (if 0x20 <= body[0] <= 0x2F then [] else [body[0]]) + DropIntermediates(body[1..])
  }

  /** Where the first `;` is, or the length. */
  function SemicolonAt(body: seq<byte>): (i: nat)
    ensures i <= |body|
    ensures i < |body| ==> body[i] == 0x3B
    ensures forall j :: 0 <= j < i ==> body[j] != 0x3B
  {
    if body == [] || body[0] == 0x3B then 0 else 1 + SemicolonAt(body[1..])
  }

  function Parameters(body: seq<byte>): (p: seq<int>)
    ensures |p| > 0
    ensures forall i :: 0 <= i < |p| ==> p[i] <= MAXIMUM_PARAMETER
    decreases |body|
  {
    var i := SemicolonAt(body);
    var first := match ParseInt(body[..i]) case None => 0 case Some(v) => Min(v, MAXIMUM_PARAMETER);
    if i == |body| then [first] else [first] + Parameters(body[i + 1..])
  }

  /** No parameter is negative, because `+` and `-` are intermediates and
      were dropped before the numbers are read. */
  lemma {:induction false} ParametersAreNotNegative(body: seq<byte>)
    requires forall i :: 0 <= i < |body| ==> !(0x20 <= body[i] <= 0x2F)
    ensures forall i :: 0 <= i < |Parameters(body)| ==> 0 <= Parameters(body)[i] <= MAXIMUM_PARAMETER
    decreases |body|
  {
    var i := SemicolonAt(body);
    if i < |body| {
      ParametersAreNotNegative(body[i + 1..]);
    }
  }

  /** What digits come to, the parameters after them following in turn: their
      number up to the largest kept, and 0 past the largest the machine holds. */
  lemma DigitsAreRead(digits: seq<byte>, rest: seq<byte>)
    requires digits != [] && AllDigits(digits)
    ensures var n := Decimal(digits);
            var read := if n > 0x7FFF_FFFF_FFFF_FFFF then 0 else Min(n, MAXIMUM_PARAMETER);
            && Parameters(digits) == [read]
            && Parameters(digits + [0x3B] + rest) == [read] + Parameters(rest)
  {
    var body := digits + [0x3B] + rest;
    assert SemicolonAt(body) == |digits| by {
      assert body[|digits|] == 0x3B;
      assert forall j :: 0 <= j < |digits| ==> body[j] == digits[j];
    }
    assert body[..|digits|] == digits && body[|digits| + 1..] == rest;
    assert SemicolonAt(digits) == |digits| && digits[..|digits|] == digits;
  }

  datatype Sequence = Ignored | Public(parameters: seq<int>) | Private(parameters: seq<int>)

  function ParseSequence(sequence: seq<byte>): (s: Sequence)
    ensures !s.Ignored? ==> ParametersOk(s.parameters)
  {
    var isPrivate := sequence != [] && 0x3C <= sequence[0] <= 0x3F;
    if isPrivate && sequence[0] != 0x3F then Ignored
    else
      var body := DropIntermediates(if isPrivate then sequence[1..] else sequence);
      ParametersAreNotNegative(body);
      if isPrivate then Private(Parameters(body)) else Public(Parameters(body))
  }

  predicate ParametersOk(p: seq<int>)
  {
    forall i :: 0 <= i < |p| ==> 0 <= p[i] <= MAXIMUM_PARAMETER
  }

  function Parameter(p: seq<int>, index: nat, fallback: nat): (v: nat)
    requires ParametersOk(p)
    ensures fallback > 0 ==> v > 0
  {
    if index < |p| && p[index] != 0 then p[index] else fallback
  }

  function RawParameter(p: seq<int>, index: nat): nat
    requires ParametersOk(p)
  {
    if index < |p| then p[index] else 0
  }

  function ApplyControlSequence(d: Display, sequence: seq<byte>, final: byte): (r: Display)
    requires DisplayOk(d)
    ensures DisplayOk(r)
  {
    match ParseSequence(sequence)
    case Ignored => d
    case Private(p) =>
      if final == 0x68 then SetPrivateModes(d, p, true)
      else if final == 0x6C then SetPrivateModes(d, p, false)
      else d
    case Public(p) => ApplyPublic(d, p, final)
  }

  predicate MovesCursor(final: byte) { 0x41 <= final <= 0x48 || final == 0x60 || final == 0x64 || final == 0x66 }

  function ApplyPublic(d: Display, p: seq<int>, final: byte): (r: Display)
    requires DisplayOk(d) && ParametersOk(p)
    ensures DisplayOk(r)
  {
    var n := Parameter(p, 0, 1);
    if MovesCursor(final) then MoveCursor(d, p, final)
    else if final == 0x4A then EraseInDisplay(d, RawParameter(p, 0))
    else if final == 0x4B then EraseInLine(d, RawParameter(p, 0))
    else if final == 0x4C then InsertLines(d, n)
    else if final == 0x4D then DeleteLines(d, n)
    else if final == 0x40 then InsertCharacters(d, n)
    else if final == 0x50 then DeleteCharacters(d, n)
    else if final == 0x58 then EraseCharacters(d, n)
    else if final == 0x53 then ScrollUp(d, n)
    else if final == 0x54 then ScrollDown(d, n)
    else if final == 0x72 then SetScrollRegion(d, n, Parameter(p, 1, d.size.rows))
    else if final == 0x73 then SaveCursor(d)
    else if final == 0x75 then At(d, d.savedCursor.row, d.savedCursor.column)
    else d
  }

  /** A B C D E F G ` d H f. */
  function MoveCursor(d: Display, p: seq<int>, final: byte): (r: Display)
    requires DisplayOk(d) && ParametersOk(p)
    ensures DisplayOk(r)
  {
    var n := Parameter(p, 0, 1);
    var (row, column, rows, columns) := (d.cursor.row, d.cursor.column, d.size.rows, d.size.columns);
    if final == 0x41 then At(d, Max(if row >= d.region.top then d.region.top else 0, row - n), column)
    else if final == 0x42 then At(d, Min(if row <= d.region.bottom then d.region.bottom else rows - 1, row + n), column)
    else if final == 0x43 then At(d, row, Min(columns - 1, column + n))
    else if final == 0x44 then At(d, row, Max(0, column - n))
    else if final == 0x45 then At(d, Min(rows - 1, row + n), 0)
    else if final == 0x46 then At(d, Max(0, row - n), 0)
    else if final == 0x47 || final == 0x60 then At(d, row, Clamp(n - 1, columns))
    else if final == 0x64 then At(d, Clamp(n - 1, rows), column)
    else At(d, Clamp(n - 1, rows), Clamp(Parameter(p, 1, 1) - 1, columns))
  }

  function SetScrollRegion(d: Display, first: nat, last: nat): (r: Display)
    requires DisplayOk(d)
    ensures DisplayOk(r)
  {
    var asked := Region(Clamp(first - 1, d.size.rows), Clamp(last - 1, d.size.rows));
    var region := if asked.top < asked.bottom then asked else Region(0, d.size.rows - 1);
    At(d.(region := region), region.top, 0)
  }

  function SetPrivateModes(d: Display, modes: seq<int>, enabled: bool): (r: Display)
    requires DisplayOk(d)
    ensures DisplayOk(r)
    decreases |modes|
  {
    if modes == [] then d else SetPrivateModes(SetPrivateMode(d, modes[0], enabled), modes[1..], enabled)
  }

  predicate IsScreenMode(mode: int) { mode == 47 || mode == 1047 || mode == 1049 }

  function SetPrivateMode(d: Display, mode: int, enabled: bool): (r: Display)
    requires DisplayOk(d)
    ensures DisplayOk(r)
  {
    if mode == 7 then d.(autoWrap := enabled)
    else if IsScreenMode(mode) then
      if enabled then EnterAlternate(d, mode == 1049) else LeaveAlternate(d)
    else d
  }

  function EnterAlternate(d: Display, restoresCursor: bool): (r: Display)
    requires DisplayOk(d)
    ensures DisplayOk(r)
  {
    if d.saved.Some? then d
    else
      var saved := Saved(d.screen, Position(d.cursor.row, d.cursor.column), restoresCursor);
      At(d.(saved := Some(saved), screen := BlankScreen(d.size)), 0, 0)
  }

  function LeaveAlternate(d: Display): (r: Display)
    requires DisplayOk(d)
    ensures DisplayOk(r)
  {
    match d.saved
    case None => d
    case Some(s) =>
      var primary := d.(screen := s.screen, saved := None);
      if s.usesCursor then At(primary, s.cursor.row, s.cursor.column)
      else At(primary, d.cursor.row, d.cursor.column)
  }

  function ApplyOperatingSystemCommand(d: Display, body: seq<byte>): (r: Display)
    requires DisplayOk(d)
    ensures DisplayOk(r)
  {
    if d.saved.Some? || |body| < 5 || body[..4] != [0x31, 0x33, 0x33, 0x3B] then d
    else
      var row := Some(|d.log.history| + d.cursor.row);
      if body[4] == 0x41 then d.(log := d.log.(marks := d.log.marks.(promptStart := row)))
      else if body[4] == 0x43 then d.(log := d.log.(marks := d.log.marks.(outputStart := row)))
      else d
  }

  function Reset(d: Display): (r: Display)
    requires DisplayOk(d)
    ensures DisplayOk(r)
  {
    Display(d.size, BlankScreen(d.size), Cursor(0, 0, false), Position(0, 0), Region(0, d.size.rows - 1),
            true, None, d.log)
  }

  // ------------------------------------------------------ Grid operations

  function Min(a: int, b: int): int { if a <= b then a else b }

  function Max(a: int, b: int): int { if a >= b then a else b }

  /** `position` moved into `0 ..< limit`. */
  function Clamp(position: int, limit: nat): nat
    requires limit > 0
  {
    Min(Max(0, position), limit - 1)
  }

  function BlankRow(columns: nat): (row: Row)
    ensures |row| == columns
  {
    seq(columns, _ => SPACE)
  }

  function BlankRows(count: nat, columns: nat): (g: Grid)
    ensures |g| == count && AllOfWidth(g, columns)
  {
    seq(count, _ => BlankRow(columns))
  }

  function ShiftedUp(g: Grid, columns: nat, top: nat, bottom: nat, n: nat, i: nat): (row: Row)
    requires top <= bottom < |g| && i < |g| && AllOfWidth(g, columns)
    ensures |row| == columns
  {
    if i < top || i > bottom then g[i] else if i + n <= bottom then g[i + n] else BlankRow(columns)
  }

  function ShiftedDown(g: Grid, columns: nat, top: nat, bottom: nat, n: nat, i: nat): (row: Row)
    requires top <= bottom < |g| && i < |g| && AllOfWidth(g, columns)
    ensures |row| == columns
  {
    if i < top || i > bottom then g[i] else if top <= i - n then g[i - n] else BlankRow(columns)
  }

  function BlankScreen(size: Size): (g: Grid)
    ensures IsGrid(g, size)
  {
    BlankRows(size.rows, size.columns)
  }

  /** The rows of `top ..= bottom` moved up by `n`, blanks following. */
  function ShiftUp(g: Grid, columns: nat, top: nat, bottom: nat, n: nat): (r: Grid)
    requires top <= bottom < |g| && AllOfWidth(g, columns)
    ensures |r| == |g| && AllOfWidth(r, columns)
  {
    seq(|g|, i requires 0 <= i < |g| => ShiftedUp(g, columns, top, bottom, n, i))
  }

  /** The rows of `top ..= bottom` moved down by `n`, blanks leading. */
  function ShiftDown(g: Grid, columns: nat, top: nat, bottom: nat, n: nat): (r: Grid)
    requires top <= bottom < |g| && AllOfWidth(g, columns)
    ensures |r| == |g| && AllOfWidth(r, columns)
  {
    seq(|g|, i requires 0 <= i < |g| => ShiftedDown(g, columns, top, bottom, n, i))
  }

  /** The cells from `column` on moved right by `n`, blanks leading. */
  function ShiftRight(row: Row, column: nat, n: nat): (r: Row)
    ensures |r| == |row|
  {
    seq(|row|, i requires 0 <= i < |row| =>
      if i < column then row[i] else if column <= i - n then row[i - n] else SPACE)
  }

  /** The cells from `column` on moved left by `n`, blanks following. */
  function ShiftLeft(row: Row, column: nat, n: nat): (r: Row)
    ensures |r| == |row|
  {
    seq(|row|, i requires 0 <= i < |row| =>
      if i < column then row[i] else if i + n < |row| then row[i + n] else SPACE)
  }

  /** Blanks in `from ..< to`. */
  function Erased(row: Row, from: int, to: int): (r: Row)
    ensures |r| == |row|
  {
    seq(|row|, i requires 0 <= i < |row| => if from <= i < to then SPACE else row[i])
  }

  /** `cell` written at `column`, its spacer after it when it is wide; half
      of a glyph it cuts is blanked. */
  function Written(row: Row, column: nat, cell: Cell, width: nat): (r: Row)
    requires column < |row|
    ensures |r| == |row|
  {
    seq(|row|, i requires 0 <= i < |row| =>
      if i == column then cell
      else if width == 2 && i == column + 1 then SPACER
      else if i + 1 == column && row[column] == SPACER then SPACE
      else if i == column + width && row[i] == SPACER then SPACE
      else row[i])
  }

  /** The cursor's row. */
  function CurrentRow(d: Display): (row: Row)
    requires DisplayOk(d)
    ensures |row| == d.size.columns
  {
    d.screen[d.cursor.row]
  }

  function WithRow(d: Display, row: Row): (r: Display)
    requires DisplayOk(d) && |row| == d.size.columns
    ensures DisplayOk(r)
  {
    d.(screen := d.screen[d.cursor.row := row])
  }

  /** The cursor's row replaced, and no wrap owed. */
  function Edited(d: Display, row: Row): (r: Display)
    requires DisplayOk(d) && |row| == d.size.columns
    ensures DisplayOk(r)
  {
    At(WithRow(d, row), d.cursor.row, d.cursor.column)
  }

  function Place(d: Display, cell: Cell, width: nat): (r: Display)
    requires DisplayOk(d) && 1 <= width <= 2
    ensures DisplayOk(r)
  {
    var w := if d.cursor.wrapPending && d.autoWrap then NextLine(d) else d;
    if width == 2 && w.cursor.column == w.size.columns - 1 then
      if w.autoWrap then Put(NextLine(w), cell, width) else w
    else Put(w, cell, width)
  }

  function Put(d: Display, cell: Cell, width: nat): (r: Display)
    requires DisplayOk(d) && 1 <= width <= 2
    ensures DisplayOk(r)
  {
    var w := WithRow(d, Written(CurrentRow(d), d.cursor.column, cell, width));
    var next := d.cursor.column + width;
    if next >= d.size.columns then w.(cursor := Cursor(d.cursor.row, d.size.columns - 1, true))
    else w.(cursor := d.cursor.(column := next))
  }

  /** The column of the character a mark after `column` belongs to: the
      first to the left, `column` included, that is not a spacer; -1 when
      there is none. */
  function BaseColumn(row: Row, column: int): (c: int)
    requires -1 <= column < |row|
    ensures -1 <= c <= column
    ensures c >= 0 ==> row[c] != SPACER
    ensures forall i :: c < i <= column ==> row[i] == SPACER
    decreases column + 1
  {
    if column < 0 || row[column] != SPACER then column else BaseColumn(row, column - 1)
  }

  function AttachCombining(u: Unicode, d: Display, mark: Scalar): (r: Display)
    requires DisplayOk(d)
    ensures DisplayOk(r)
  {
    var row := CurrentRow(d);
    var c := BaseColumn(row, if d.cursor.wrapPending then d.cursor.column else d.cursor.column - 1);
    if c >= 0 && u.joins(row[c], mark) then WithRow(d, row[c := row[c] + [mark]]) else d
  }

  /** Down a line, or the region up one. */
  function Index(d: Display): (r: Display)
    requires DisplayOk(d)
    ensures DisplayOk(r)
    ensures r.cursor.column == d.cursor.column && !r.cursor.wrapPending
    ensures r.autoWrap == d.autoWrap && r.size == d.size
  {
    if d.cursor.row == d.region.bottom then At(ScrollUp(d, 1), d.cursor.row, d.cursor.column)
    else At(d, Min(d.size.rows - 1, d.cursor.row + 1), d.cursor.column)
  }

  /** The first column of the next line. */
  function NextLine(d: Display): (r: Display)
    requires DisplayOk(d)
    ensures DisplayOk(r)
    ensures r.cursor.column == 0 && !r.cursor.wrapPending
    ensures r.autoWrap == d.autoWrap && r.size == d.size
  {
    Index(At(d, d.cursor.row, 0))
  }

  function ReverseIndex(d: Display): (r: Display)
    requires DisplayOk(d)
    ensures DisplayOk(r)
  {
    if d.cursor.row == d.region.top then At(ScrollDown(d, 1), d.cursor.row, d.cursor.column)
    else At(d, Max(0, d.cursor.row - 1), d.cursor.column)
  }

  function RegionHeight(d: Display): nat
    requires DisplayOk(d)
  {
    d.region.bottom - d.region.top + 1
  }

  /** Whether lines leaving the top of the region become history. */
  predicate KeepsHistory(d: Display)
  {
    d.saved.None? && d.region.top == 0
  }

  /** `lines` become history; past the cap the oldest kept ones go. */
  function Logged(l: Log, lines: seq<Row>): (r: Log)
    ensures r.history == l.history + lines
  {
    var history := l.history + lines;
    l.(history := history, scrolledOff := Max(l.scrolledOff, |history| - SCROLLBACK_LIMIT))
  }

  function ScrollUp(d: Display, count: nat): (r: Display)
    requires DisplayOk(d)
    ensures DisplayOk(r)
    ensures r.size == d.size && r.autoWrap == d.autoWrap
  {
    var n := Max(1, count);
    var screen := ShiftUp(d.screen, d.size.columns, d.region.top, d.region.bottom, n);
    var log := if KeepsHistory(d) then Logged(d.log, d.screen[..Min(n, RegionHeight(d))]) else d.log;
    d.(screen := screen, log := log)
  }

  function ScrollDown(d: Display, count: nat): (r: Display)
    requires DisplayOk(d)
    ensures DisplayOk(r)
    ensures r.size == d.size
  {
    d.(screen := ShiftDown(d.screen, d.size.columns, d.region.top, d.region.bottom, Max(1, count)))
  }

  function EraseInDisplay(d: Display, mode: nat): (r: Display)
    requires DisplayOk(d)
    ensures DisplayOk(r)
  {
    if mode > 3 then d
    else
      var screen := seq(d.size.rows, i requires 0 <= i < d.size.rows => ErasedRow(d, mode, i));
      var log := if mode == 3 then d.log.(scrolledOff := |d.log.history|) else d.log;
      At(d.(screen := screen, log := log), d.cursor.row, d.cursor.column)
  }

  function ErasedRow(d: Display, mode: nat, i: nat): (row: Row)
    requires DisplayOk(d) && i < d.size.rows
    ensures |row| == d.size.columns
  {
    if mode >= 2 || (mode == 0 && i > d.cursor.row) || (mode == 1 && i < d.cursor.row) then BlankRow(d.size.columns)
    else if i != d.cursor.row then d.screen[i]
    else if mode == 0 then Erased(d.screen[i], d.cursor.column, d.size.columns)
    else Erased(d.screen[i], 0, d.cursor.column + 1)
  }

  function EraseInLine(d: Display, mode: nat): (r: Display)
    requires DisplayOk(d)
    ensures DisplayOk(r)
  {
    if mode == 0 then Edited(d, Erased(CurrentRow(d), d.cursor.column, d.size.columns))
    else if mode == 1 then Edited(d, Erased(CurrentRow(d), 0, d.cursor.column + 1))
    else if mode == 2 then Edited(d, BlankRow(d.size.columns))
    else d
  }

  predicate InRegion(d: Display) { d.region.top <= d.cursor.row <= d.region.bottom }

  function InsertLines(d: Display, count: nat): (r: Display)
    requires DisplayOk(d)
    ensures DisplayOk(r)
  {
    if !InRegion(d) then d
    else At(d.(screen := ShiftDown(d.screen, d.size.columns, d.cursor.row, d.region.bottom, count)), d.cursor.row, 0)
  }

  function DeleteLines(d: Display, count: nat): (r: Display)
    requires DisplayOk(d)
    ensures DisplayOk(r)
  {
    if !InRegion(d) then d
    else At(d.(screen := ShiftUp(d.screen, d.size.columns, d.cursor.row, d.region.bottom, count)), d.cursor.row, 0)
  }

  function InsertCharacters(d: Display, count: nat): (r: Display)
    requires DisplayOk(d)
    ensures DisplayOk(r)
  {
    Edited(d, ShiftRight(CurrentRow(d), d.cursor.column, count))
  }

  function DeleteCharacters(d: Display, count: nat): (r: Display)
    requires DisplayOk(d)
    ensures DisplayOk(r)
  {
    Edited(d, ShiftLeft(CurrentRow(d), d.cursor.column, count))
  }

  function EraseCharacters(d: Display, count: nat): (r: Display)
    requires DisplayOk(d)
    ensures DisplayOk(r)
  {
    if count == 0 then d
    else Edited(d, Erased(CurrentRow(d), d.cursor.column, d.cursor.column + count))
  }
}
