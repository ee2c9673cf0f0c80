/**
 From rows of cells to lines of text: what of a row counts as text, which rows
 become lines, and the line that stands for a marked row.
 */
module Transcripts {
  import opened Bytes
  import opened Terminal
  import opened Wrappers

  /** A line of text: characters, no spacers. */
  type Text = seq<Cell>

  function Visible(row: Row): (line: Text)
    ensures SPACER !in line
  {
    if row == [] then []
    else (if row[0] == SPACER then [] else [row[0]]) + Visible(row[1..])
  }

  predicate IsPadding(c: Cell) { c == SPACE || c == TAB }

  function Trimmed(line: Text): (r: Text)
    ensures r <= line
    ensures r != [] ==> !IsPadding(r[|r| - 1])
    ensures forall i :: |r| <= i < |line| ==> IsPadding(line[i])
  {
    if line != [] && IsPadding(line[|line| - 1]) then Trimmed(line[..|line| - 1]) else line
  }

  /** The text of one row. */
  function RowText(row: Row): Text { Trimmed(Visible(row)) }

  function Texts(g: Grid): (r: seq<Text>)
    ensures |r| == |g| && forall i :: 0 <= i < |g| ==> r[i] == RowText(g[i])
  {
    seq(|g|, i requires 0 <= i < |g| => RowText(g[i]))
  }

  /** Blank lines at the end dropped. */
  function WithoutTail(texts: seq<Text>): (r: seq<Text>)
    ensures r <= texts
    ensures r != [] ==> r[|r| - 1] != []
    ensures forall i :: |r| <= i < |texts| ==> texts[i] == []
  {
    if texts != [] && texts[|texts| - 1] == [] then WithoutTail(texts[..|texts| - 1]) else texts
  }

  /** How many lines at the start are blank. */
  function LeadingBlank(texts: seq<Text>): (n: nat)
    ensures n <= |texts|
    ensures forall i :: 0 <= i < n ==> texts[i] == []
    ensures n < |texts| ==> texts[n] != []
  {
    if texts == [] || texts[0] != [] then 0 else 1 + LeadingBlank(texts[1..])
  }

  /** What is left with the blank lines at both ends dropped. */
  function Lines(texts: seq<Text>): seq<Text>
  {
    WithoutTail(texts)[Leading(texts)..]
  }

  /** How many texts come before the first line. */
  function Leading(texts: seq<Text>): (n: nat)
    ensures n <= |WithoutTail(texts)|
  {
    LeadingBlank(WithoutTail(texts))
  }

  /** The rows the transcript covers: the kept history, then the screen. */
  ghost function Buffer(d: Display): Grid
    requires DisplayOk(d)
  {
    d.log.history[d.log.scrolledOff..] + d.screen
  }

  /** The row with this number, kept or not: row 0 is the oldest of all. */
  ghost function RowAt(d: Display, row: nat): Row
    requires row < |d.log.history| + |d.screen|
  {
    if row < |d.log.history| then d.log.history[row] else d.screen[row - |d.log.history|]
  }

  /** Where the transcript puts a marked row. */
  function MarkIndex(mark: Option<nat>, scrolledOff: nat, leading: nat, count: nat): Option<nat>
  {
    if mark.None? || mark.value < scrolledOff + leading then None
    else Some(Min(mark.value - scrolledOff - leading, count))
  }

  /** Whether every text of `from ..< to` is blank. */
  ghost predicate Blank(texts: seq<Text>, from: nat, to: nat)
    requires to <= |texts|
  {
    forall i :: from <= i < to ==> texts[i] == []
  }

  /** The lines are the texts, in order, between the blank ones at the two
      ends, and they begin and end with text. */
  lemma LinesAreTheTextBetween(texts: seq<Text>)
    ensures var lines, leading := Lines(texts), Leading(texts);
            && leading + |lines| <= |texts|
            && Blank(texts, 0, leading) && Blank(texts, leading + |lines|, |texts|)
            && lines == texts[leading..leading + |lines|]
            && (lines != [] ==> lines[0] != [] && lines[|lines| - 1] != [])
            && (lines == [] ==> leading == 0)
  {
    var kept := WithoutTail(texts);
    if kept != [] {
      assert kept[|kept| - 1] != [];
      assert Leading(texts) < |kept|;
    }
  }

  /** A mark and its place among the lines of a buffer that begins at the
      absolute row `off`. There is none exactly when the row is before the
      buffer, or nothing but blank rows lead up to and through it and text
      follows; otherwise it is the row's own text, or the line count when
      only blank rows remain from it on. */
  lemma PlaceOfMark(texts: seq<Text>, off: nat, mark: nat)
    requires mark < off + |texts|
    ensures var lines := Lines(texts);
            var index := MarkIndex(Some(mark), off, Leading(texts), |lines|);
            && (index.None? <==>
                (mark < off || (Blank(texts, 0, mark - off + 1) && !Blank(texts, mark - off, |texts|))))
            && (index.Some? && index.value < |lines| ==> lines[index.value] == texts[mark - off])
            && (index == Some(|lines|) <==> (mark >= off && Blank(texts, mark - off, |texts|)))
  {
    LinesAreTheTextBetween(texts);
    var lines, leading := Lines(texts), Leading(texts);
    if lines != [] {
      assert texts[leading] == lines[0];
      assert texts[leading + |lines| - 1] == lines[|lines| - 1];
    }
  }

  /** The buffer's texts are those of the absolute rows from the first kept
      one on, so a mark's text is its own row's. */
  lemma TextOfMark(d: Display, mark: nat)
    requires DisplayOk(d) && d.log.scrolledOff <= mark < |d.log.history| + |d.screen|
    ensures mark - d.log.scrolledOff < |Texts(Buffer(d))|
    ensures Texts(Buffer(d))[mark - d.log.scrolledOff] == RowText(RowAt(d, mark))
  {
    assert Buffer(d)[mark - d.log.scrolledOff] == RowAt(d, mark);
  }

  /** What a mark of the row with this text comes to: no place when the row is
      gone or leads up to the text as a blank one; the line count when only
      blank rows remain; the row's own text otherwise. */
  ghost predicate HasPlace(texts: seq<Text>, off: nat, mark: nat, own: Text)
  {
    var lines := Lines(texts);
    var index := MarkIndex(Some(mark), off, Leading(texts), |lines|);
    && (mark >= off ==> mark - off < |texts|)
    && (index.Some? && index.value < |lines| ==> lines[index.value] == own)
    && (index == Some(|lines|) <==> (mark >= off && Blank(texts, mark - off, |texts|)))
    && (index.None? <==>
        (mark < off || (Blank(texts, 0, mark - off + 1) && !Blank(texts, mark - off, |texts|))))
  }

  lemma TextHasPlace(texts: seq<Text>, off: nat, mark: nat, own: Text)
    requires mark < off + |texts| && (mark >= off ==> own == texts[mark - off])
    ensures HasPlace(texts, off, mark, own)
  {
    PlaceOfMark(texts, off, mark);
  }

  lemma MarkIsHeld(d: Display, mark: nat)
    requires DisplayOk(d) && (d.log.marks.outputStart == Some(mark) || d.log.marks.promptStart == Some(mark))
    ensures mark < |d.log.history| + |d.screen|
  {
  }

  lemma RowHasPlace(d: Display, mark: nat)
    requires DisplayOk(d) && mark < |d.log.history| + |d.screen|
    ensures HasPlace(Texts(Buffer(d)), d.log.scrolledOff, mark, RowText(RowAt(d, mark)))
  {
    if mark >= d.log.scrolledOff {
      TextOfMark(d, mark);
    }
    TextHasPlace(Texts(Buffer(d)), d.log.scrolledOff, mark, RowText(RowAt(d, mark)));
  }

  /** A mark the terminal holds is of a row it has had, and has the place of
      that very row: its text, the line count when only blank rows remain, or
      none when the row is gone or leads up to the text as a blank one. */
  lemma MarkIsItsRow(d: Display, mark: nat)
    requires DisplayOk(d) && (d.log.marks.outputStart == Some(mark) || d.log.marks.promptStart == Some(mark))
    ensures mark < |d.log.history| + |d.screen|
    ensures var (texts, off) := (Texts(Buffer(d)), d.log.scrolledOff);
            var lines := Lines(texts);
            var index := MarkIndex(Some(mark), off, Leading(texts), |lines|);
            && (index.Some? && index.value < |lines| ==> lines[index.value] == RowText(RowAt(d, mark)))
            && (mark >= off ==> mark - off < |texts|)
            && (index == Some(|lines|) <==> (mark >= off && Blank(texts, mark - off, |texts|)))
            && (index.None? <==>
                (mark < off || (Blank(texts, 0, mark - off + 1) && !Blank(texts, mark - off, |texts|))))
  {
    MarkIsHeld(d, mark);
    RowHasPlace(d, mark);
  }

  // ---------------------------------------------------------- A run for it

  lemma FedOne(u: Unicode, t: Term, b: byte, rest: seq<byte>)
    requires Ok(t)
    ensures Feed(u, t, [b] + rest) == Feed(u, Consume(u, t, b), rest)
  {
    assert ([b] + rest)[1..] == rest;
  }

  /** The body of an OSC is gathered, while it fits. */
  lemma {:induction false} BodyIsGathered(u: Unicode, t: Term, body: seq<byte>, rest: seq<byte>)
    requires Ok(t) && t.parser.state.OperatingSystemCommand? && |t.parser.osc| + |body| <= 8
    requires forall i :: 0 <= i < |body| ==> body[i] != 0x07 && body[i] != 0x1B
    ensures var r := t.(parser := t.parser.(osc := t.parser.osc + body));
            Ok(r) && Feed(u, t, body + rest) == Feed(u, r, rest)
    decreases |body|
  {
    if body == [] {
      assert body + rest == rest && t.parser.osc + body == t.parser.osc;
    } else {
      assert body + rest == [body[0]] + (body[1..] + rest);
      FedOne(u, t, body[0], body[1..] + rest);
      BodyIsGathered(u, Consume(u, t, body[0]), body[1..], rest);
      assert t.parser.osc + [body[0]] + body[1..] == t.parser.osc + body;
    }
  }

  lemma EscapeIsRead(u: Unicode, t: Term, rest: seq<byte>)
    requires Ok(t) && t.parser == Parser(Ground, [], [], [], 0)
    ensures var r := t.(parser := Parser(Escape, [], [], [], 0));
            Ok(r) && Feed(u, t, [0x1B] + rest) == Feed(u, r, rest)
  {
    FedOne(u, t, 0x1B, rest);
  }

  lemma IntroducerIsRead(u: Unicode, t: Term, rest: seq<byte>)
    requires Ok(t) && t.parser == Parser(Escape, [], [], [], 0)
    ensures var r := t.(parser := Parser(OperatingSystemCommand, [], [], [], 0));
            Ok(r) && Feed(u, t, [0x5D] + rest) == Feed(u, r, rest)
  {
    FedOne(u, t, 0x5D, rest);
  }

  lemma OscIsBegun(u: Unicode, t: Term, rest: seq<byte>)
    requires Ok(t) && t.parser == Parser(Ground, [], [], [], 0)
    ensures var r := t.(parser := Parser(OperatingSystemCommand, [], [], [], 0));
            Ok(r) && Feed(u, t, [0x1B] + ([0x5D] + rest)) == Feed(u, r, rest)
  {
    EscapeIsRead(u, t, [0x5D] + rest);
    IntroducerIsRead(u, t.(parser := Parser(Escape, [], [], [], 0)), rest);
  }

  lemma OscIsEnded(u: Unicode, t: Term, body: seq<byte>, rest: seq<byte>)
    requires Ok(t) && t.parser == Parser(OperatingSystemCommand, [], body, [], 0)
    ensures var r := Term(ApplyOperatingSystemCommand(t.display, body), Parser(Ground, [], [], [], 0));
            Ok(r) && Feed(u, t, [0x07] + rest) == Feed(u, r, rest)
  {
    FedOne(u, t, 0x07, rest);
  }

  /** A whole OSC ended by BEL, from rest. */
  lemma OscIsApplied(u: Unicode, t: Term, body: seq<byte>, rest: seq<byte>)
    requires Ok(t) && t.parser == Parser(Ground, [], [], [], 0) && |body| <= 8
    requires forall i :: 0 <= i < |body| ==> body[i] != 0x07 && body[i] != 0x1B
    ensures var r := t.(display := ApplyOperatingSystemCommand(t.display, body));
            Ok(r) && Feed(u, t, [0x1B] + ([0x5D] + (body + ([0x07] + rest)))) == Feed(u, r, rest)
  {
    var begun := t.(parser := Parser(OperatingSystemCommand, [], [], [], 0));
    OscIsBegun(u, t, body + ([0x07] + rest));
    BodyIsGathered(u, begun, body, [0x07] + rest);
    assert [] + body == body;
    OscIsEnded(u, t.(parser := Parser(OperatingSystemCommand, [], body, [], 0)), body, rest);
  }

  const PROMPT_MARK: seq<byte> := [0x31, 0x33, 0x33, 0x3B, 0x41]

  /** One column, two blank rows, the cursor at the top. */
  ghost predicate Blank1x2(d: Display)
  {
    && d.size == Size(1, 2) && d.screen == [[SPACE], [SPACE]] && d.cursor == Cursor(0, 0, false)
    && d.region == Region(0, 1) && d.autoWrap && d.saved == None && d.log.history == [] && d.log.scrolledOff == 0
    && d.log.marks.outputStart == None
  }

  /** A line feed and an x leave the first row blank and the second with it. */
  lemma TextOnTheSecondRow(d: Display)
    requires DisplayOk(d) && Blank1x2(d)
    ensures var r := Act(Act(d, 0x0A), 0x78);
            DisplayOk(r) && r.screen == [[SPACE], [[0x78]]] && r.log == d.log
  {
    var down := Act(d, 0x0A);
    assert down.cursor == Cursor(1, 0, false) && down.screen == d.screen && down.log == d.log;
    var r := Act(down, 0x78);
    assert r.screen[0] == [SPACE] && r.screen[1] == [[0x78]];
  }

  /** A run that shows it: a prompt marked on a row that stays blank, then
      text on the next. The row is still in the buffer; the mark has no place. */
  lemma MarkOnALeadingBlankRow(u: Unicode)
    ensures var bytes := [0x1B] + ([0x5D] + (PROMPT_MARK + ([0x07] + ([0x0A] + [0x78]))));
            var d := Feed(u, Init(1, 2), bytes).display;
            var texts := Texts(Buffer(d));
            && d.log.marks.promptStart == Some(0) && d.log.scrolledOff == 0 && |texts| == 2
            && MarkIndex(d.log.marks.promptStart, 0, Leading(texts), |Lines(texts)|) == None
  {
    var t := Init(1, 2);
    assert t.display.screen[0] == [SPACE] && t.display.screen[1] == [SPACE];
    assert t.display.screen == [[SPACE], [SPACE]];
    OscIsApplied(u, t, PROMPT_MARK, [0x0A] + [0x78]);
    var marked := t.(display := ApplyOperatingSystemCommand(t.display, PROMPT_MARK));
    assert PROMPT_MARK[..4] == [0x31, 0x33, 0x33, 0x3B];
    TwoBytesAct(u, marked, 0x0A, 0x78);
    TextOnTheSecondRow(marked.display);
    TextsOfTwoRows(Act(Act(marked.display, 0x0A), 0x78));
  }

  /** Two bytes that are acted on as they are. */
  lemma TwoBytesAct(u: Unicode, t: Term, first: byte, second: byte)
    requires Ok(t) && t.parser == Parser(Ground, [], [], [], 0)
    requires first < 0x80 && first != 0x1B && second < 0x80 && second != 0x1B
    ensures Feed(u, t, [first] + [second]).display == Act(Act(t.display, first), second)
  {
    FedOne(u, t, first, [second]);
    var next := Consume(u, t, first);
    assert next == t.(display := Act(t.display, first));
    assert [second] + [] == [second];
    FedOne(u, next, second, []);
  }

  lemma TextsOfTwoRows(d: Display)
    requires DisplayOk(d) && d.log.history == [] && d.log.scrolledOff == 0 && d.screen == [[SPACE], [[0x78]]]
    ensures var texts := Texts(Buffer(d));
            |texts| == 2 && Leading(texts) == 1
  {
    var texts := Texts(Buffer(d));
    assert Buffer(d) == d.screen;
    assert Visible([SPACE]) == [SPACE] && Trimmed([SPACE]) == [] by {
      assert [SPACE][..0] == [];
    }
    assert Visible([[0x78]]) == [[0x78]] && Trimmed([[0x78]]) == [[0x78]];
    assert texts[0] == [] && texts[1] == [[0x78]];
    assert WithoutTail(texts) == texts && LeadingBlank(texts) == 1;
  }
}
