/**
 What holds over whole runs of output: history only grows and is trimmed
 only by its cap, and what happens on the alternate screen leaves no trace.
 */
module TerminalRuns {
  import opened Bytes
  import opened Terminal
  import opened Wrappers

  // ------------------------------------------------- What a byte executes

  /** The byte is the final one of a control sequence. */
  predicate EndsSequence(p: Parser, b: byte) { p.state.Csi? && 0x40 <= b <= 0x7E }

  /** ED with parameter 3. */
  predicate ClearsScrollback(p: Parser, b: byte)
  {
    EndsSequence(p, b) && b == 0x4A &&
    match ParseSequence(p.csi)
    case Public(n) => RawParameter(n, 0) == 3
    case _ => false
  }

  /** A private mode reset that names one of the screen modes. */
  predicate LeavesScreen(p: Parser, b: byte)
  {
    EndsSequence(p, b) && b == 0x6C &&
    match ParseSequence(p.csi)
    case Private(n) => NamesScreenMode(n)
    case _ => false
  }

  predicate NamesScreenMode(modes: seq<int>)
  {
    modes != [] && (IsScreenMode(modes[0]) || NamesScreenMode(modes[1..]))
  }

  /** RIS. */
  predicate Resets(p: Parser, b: byte) { p.state.Escape? && b == 0x63 }

  predicate EndsAlternate(p: Parser, b: byte)
  {
    LeavesScreen(p, b) || Resets(p, b) || ClearsScrollback(p, b)
  }

  /** No byte of the run executes a `bad` one: a matter of the bytes alone,
      since the parser never asks the display. */
  ghost predicate Never(p: Parser, bytes: seq<byte>, bad: (Parser, byte) -> bool)
    requires ParserOk(p)
    decreases |bytes|
  {
    bytes != [] ==> !bad(p, bytes[0]) && Never(NextParser(p, bytes[0]), bytes[1..], bad)
  }

  /** Where the parser is after `bytes`. */
  ghost function ParserAfter(p: Parser, bytes: seq<byte>): (r: Parser)
    requires ParserOk(p)
    ensures ParserOk(r)
    decreases |bytes|
  {
    if bytes == [] then p else ParserAfter(NextParser(p, bytes[0]), bytes[1..])
  }

  lemma {:induction false} FeedInTwo(u: Unicode, t: Term, first: seq<byte>, second: seq<byte>)
    requires Ok(t)
    ensures Feed(u, t, first + second) == Feed(u, Feed(u, t, first), second)
    decreases |first|
  {
    if first == [] {
      assert first + second == second;
    } else {
      assert (first + second)[1..] == first[1..] + second;
      FeedInTwo(u, Consume(u, t, first[0]), first[1..], second);
    }
  }

  lemma {:induction false} FeedParser(u: Unicode, t: Term, bytes: seq<byte>)
    requires Ok(t)
    ensures Feed(u, t, bytes).parser == ParserAfter(t.parser, bytes)
    decreases |bytes|
  {
    if bytes != [] {
      FeedParser(u, Consume(u, t, bytes[0]), bytes[1..]);
    }
  }

  // -------------------------------------------------------------- History

  /** The history only gained lines and the trimmed count only grew; with no
      line cleared, no further than the cap asks. */
  ghost predicate Extends(d: Display, r: Display, cleared: bool)
  {
    && r.size == d.size
    && d.log.history <= r.log.history
    && d.log.scrolledOff <= r.log.scrolledOff
    && (!cleared ==> r.log.scrolledOff == Max(d.log.scrolledOff, |r.log.history| - SCROLLBACK_LIMIT))
  }

  /** The effect of everything but screen switches, RIS, ED 3 and marks. */
  ghost predicate EditsOnly(d: Display, r: Display)
  {
    && Extends(d, r, false)
    && r.saved == d.saved && r.log.marks == d.log.marks
    && (d.saved.Some? ==> r.log == d.log)
  }

  lemma IndexEdits(d: Display)
    requires DisplayOk(d)
    ensures EditsOnly(d, Index(d)) && EditsOnly(d, ReverseIndex(d)) && EditsOnly(d, NextLine(d))
  {
    assert EditsOnly(d, ScrollUp(d, 1));
    var home := At(d, d.cursor.row, 0);
    assert EditsOnly(home, ScrollUp(home, 1));
  }

  lemma EditsCompose(a: Display, b: Display, c: Display)
    requires EditsOnly(a, b) && EditsOnly(b, c)
    ensures EditsOnly(a, c)
  {
  }

  lemma PutEdits(d: Display, cell: Cell, width: nat)
    requires DisplayOk(d) && 1 <= width <= 2
    ensures EditsOnly(d, Put(d, cell, width))
  {
  }

  lemma PlaceEdits(d: Display, cell: Cell, width: nat)
    requires DisplayOk(d) && 1 <= width <= 2
    ensures EditsOnly(d, Place(d, cell, width))
  {
    IndexEdits(d);
    var w := if d.cursor.wrapPending && d.autoWrap then NextLine(d) else d;
    PutEdits(w, cell, width);
    EditsCompose(d, w, Put(w, cell, width));
    IndexEdits(w);
    EditsCompose(d, w, NextLine(w));
    PutEdits(NextLine(w), cell, width);
    EditsCompose(d, NextLine(w), Put(NextLine(w), cell, width));
  }

  lemma EmitEdits(u: Unicode, d: Display, s: Scalar)
    requires DisplayOk(d)
    ensures EditsOnly(d, Emit(u, d, s))
  {
    if Width(u, s) > 0 {
      PlaceEdits(d, [s], Width(u, s));
    }
  }

  lemma ActEdits(d: Display, b: byte)
    requires DisplayOk(d)
    ensures EditsOnly(d, Act(d, b))
  {
    IndexEdits(d);
    if 0x20 <= b < 0x7F {
      PlaceEdits(d, [b], 1);
    }
  }

  lemma PublicEdits(d: Display, n: seq<int>, final: byte)
    requires DisplayOk(d) && ParametersOk(n)
    requires !(final == 0x4A && RawParameter(n, 0) == 3)
    ensures EditsOnly(d, ApplyPublic(d, n, final))
  {
    if MovesCursor(final) {
      assert EditsOnly(d, MoveCursor(d, n, final));
    }
  }

  lemma {:induction false} ModesExtend(d: Display, modes: seq<int>, enabled: bool)
    requires DisplayOk(d)
    ensures var r := SetPrivateModes(d, modes, enabled);
            && r.size == d.size && r.log == d.log
            && (d.saved.Some? && (enabled || !NamesScreenMode(modes)) ==> r.saved == d.saved)
    decreases |modes|
  {
    if modes != [] {
      ModesExtend(SetPrivateMode(d, modes[0], enabled), modes[1..], enabled);
    }
  }

  /** Every byte but those that execute a screen switch, RIS, ED 3 or an
      operating system command. */
  lemma StepEdits(u: Unicode, p: Parser, d: Display, b: byte)
    requires ParserOk(p) && DisplayOk(d)
    requires !Resets(p, b) && !ClearsScrollback(p, b) && !p.state.OperatingSystemCommand?
    requires !(EndsSequence(p, b) && ParseSequence(p.csi).Private?)
    ensures EditsOnly(d, NextDisplay(u, p, d, b))
  {
    match p.state {
      case Ground =>
        if p.pendingLength == 0 || !IsContinuation(b) {
          ActEdits(d, b);
        } else if |p.pending| + 1 == p.pendingLength && Decode(p.pending + [b]).Some? {
          EmitEdits(u, d, Decode(p.pending + [b]).value);
        }
      case Escape => IndexEdits(d);
      case Csi =>
        if !(0x20 <= b <= 0x7E) {
          ActEdits(d, b);
        } else if b >= 0x40 && ParseSequence(p.csi).Public? {
          PublicEdits(d, ParseSequence(p.csi).parameters, b);
        }
      case _ =>
    }
  }

  lemma QuietExtends(d: Display, body: seq<byte>)
    requires DisplayOk(d)
    ensures Extends(d, Reset(d), false) && Extends(d, ApplyOperatingSystemCommand(d, body), false)
  {
  }

  lemma ClearExtends(d: Display)
    requires DisplayOk(d)
    ensures Extends(d, EraseInDisplay(d, 3), true)
  {
  }

  /** One byte: history is only ever appended to, and but for ED 3 the
      trimmed count is what the cap makes it. */
  lemma StepExtends(u: Unicode, p: Parser, d: Display, b: byte)
    requires ParserOk(p) && DisplayOk(d)
    ensures Extends(d, NextDisplay(u, p, d, b), ClearsScrollback(p, b))
  {
    if Resets(p, b) || p.state.OperatingSystemCommand? {
      QuietExtends(d, p.osc);
    } else if ClearsScrollback(p, b) {
      ClearExtends(d);
    } else if EndsSequence(p, b) && ParseSequence(p.csi).Private? {
      PrivateExtends(u, p, d, b);
    } else {
      StepEdits(u, p, d, b);
    }
  }

  lemma PrivateExtends(u: Unicode, p: Parser, d: Display, b: byte)
    requires ParserOk(p) && DisplayOk(d) && EndsSequence(p, b) && ParseSequence(p.csi).Private?
    ensures Extends(d, NextDisplay(u, p, d, b), false)
  {
    ModesExtend(d, ParseSequence(p.csi).parameters, true);
    ModesExtend(d, ParseSequence(p.csi).parameters, false);
  }

  /** Over any run the history keeps every line it had, in place, and the
      lines let go are exactly those the cap pushes out, unless ED 3 ran. */
  lemma {:induction false} RunExtends(u: Unicode, t: Term, bytes: seq<byte>)
    requires Ok(t)
    ensures Extends(t.display, Feed(u, t, bytes).display, !Never(t.parser, bytes, ClearsScrollback))
    decreases |bytes|
  {
    if bytes != [] {
      StepExtends(u, t.parser, t.display, bytes[0]);
      RunExtends(u, Consume(u, t, bytes[0]), bytes[1..]);
    }
  }

  // ---------------------------------------------------- Alternate screen

  /** What lies under the alternate screen, and around it. */
  ghost predicate SamePrimary(d: Display, r: Display)
  {
    r.size == d.size && r.saved == d.saved && r.log == d.log
  }

  lemma StepKeepsPrimary(u: Unicode, p: Parser, d: Display, b: byte)
    requires ParserOk(p) && DisplayOk(d) && d.saved.Some? && !EndsAlternate(p, b)
    ensures SamePrimary(d, NextDisplay(u, p, d, b))
  {
    if p.state.OperatingSystemCommand? {
    } else if EndsSequence(p, b) && ParseSequence(p.csi).Private? {
      ModesExtend(d, ParseSequence(p.csi).parameters, true);
      ModesExtend(d, ParseSequence(p.csi).parameters, false);
    } else {
      StepEdits(u, p, d, b);
    }
  }

  lemma {:induction false} RunKeepsPrimary(u: Unicode, t: Term, bytes: seq<byte>)
    requires Ok(t) && t.display.saved.Some? && Never(t.parser, bytes, EndsAlternate)
    ensures SamePrimary(t.display, Feed(u, t, bytes).display)
    decreases |bytes|
  {
    if bytes != [] {
      StepKeepsPrimary(u, t.parser, t.display, bytes[0]);
      RunKeepsPrimary(u, Consume(u, t, bytes[0]), bytes[1..]);
    }
  }

  /** Entering the alternate screen, any output that does not itself leave
      it, reset the terminal or clear the scrollback, then leaving: the
      primary screen, the history, the trimmed count and the marks are as
      they were, and so is the cursor when entry saved it. */
  lemma AlternateScreenLeavesNoTrace(u: Unicode, t: Term, body: seq<byte>, restoresCursor: bool)
    requires Ok(t) && t.display.saved.None? && Never(t.parser, body, EndsAlternate)
    ensures var r := LeaveAlternate(Feed(u, t.(display := EnterAlternate(t.display, restoresCursor)), body).display);
            && SamePrimary(t.display, r) && r.screen == t.display.screen
            && (restoresCursor ==> r.cursor == t.display.cursor.(wrapPending := false))
  {
    RunKeepsPrimary(u, t.(display := EnterAlternate(t.display, restoresCursor)), body);
  }

  // ------------------------------------------------- The same, over bytes

  /** ? 1 0 4 9 */
  const MODE_1049: seq<byte> := [0x3F, 0x31, 0x30, 0x34, 0x39]
  const CSI_1049: seq<byte> := [0x1B, 0x5B] + MODE_1049

  lemma {:induction false} NothingDropped(body: seq<byte>)
    requires forall i :: 0 <= i < |body| ==> !(0x20 <= body[i] <= 0x2F)
    ensures DropIntermediates(body) == body
  {
    if body != [] {
      NothingDropped(body[1..]);
    }
  }

  /** `?` and the digits of a number no larger than a parameter may be. */
  lemma PrivateNumber(digits: seq<byte>)
    requires digits != [] && AllDigits(digits) && Decimal(digits) <= MAXIMUM_PARAMETER
    ensures ParseSequence([0x3F] + digits) == Private([Decimal(digits)])
  {
    assert ([0x3F] + digits)[1..] == digits;
    NothingDropped(digits);
    assert digits[..SemicolonAt(digits)] == digits;
    assert ParseInt(digits) == Some(Decimal(digits));
  }

  lemma DigitsOf1049(digits: seq<byte>)
    requires digits == [0x31, 0x30, 0x34, 0x39]
    ensures AllDigits(digits) && Decimal(digits) == 1049
  {
    assert Decimal(digits[..3][..2][..1][..0]) == 0;
    assert Decimal(digits[..3][..2][..1]) == 1;
    assert Decimal(digits[..3][..2]) == 10;
    assert Decimal(digits[..3]) == 104;
  }

  lemma Mode1049()
    ensures ParseSequence(MODE_1049) == Private([1049])
  {
    var digits := MODE_1049[1..];
    DigitsOf1049(digits);
    PrivateNumber(digits);
    assert [0x3F] + digits == MODE_1049;
  }

  /** Parameter bytes gather, up to the buffer's 64, and show nothing. */
  lemma {:induction false} CollectParameters(u: Unicode, t: Term, bytes: seq<byte>)
    requires Ok(t) && t.parser.state.Csi? && |t.parser.csi| + |bytes| <= 64
    requires forall i :: 0 <= i < |bytes| ==> 0x20 <= bytes[i] <= 0x3F
    ensures Feed(u, t, bytes) == t.(parser := t.parser.(csi := t.parser.csi + bytes))
    decreases |bytes|
  {
    if bytes == [] {
      assert t.parser.csi + bytes == t.parser.csi;
    } else {
      CollectParameters(u, Consume(u, t, bytes[0]), bytes[1..]);
      assert t.parser.csi + [bytes[0]] + bytes[1..] == t.parser.csi + bytes;
    }
  }

  lemma IntroducerBytes(u: Unicode, t: Term)
    requires Ok(t) && t.parser.state.Ground?
    ensures Feed(u, t, [0x1B, 0x5B])
         == t.(parser := t.parser.(pending := [], pendingLength := 0, state := Csi, csi := []))
  {
    var s := t.(parser := t.parser.(pending := [], pendingLength := 0, state := Escape));
    assert Consume(u, t, 0x1B) == s;
    assert [0x1B, 0x5B][1..] == [0x5B];
    assert Feed(u, t, [0x1B, 0x5B]) == Feed(u, s, [0x5B]) == Consume(u, s, 0x5B);
  }

  lemma FinalByte(u: Unicode, t: Term, final: byte)
    requires Ok(t) && t.parser.state.Csi? && t.parser.csi == MODE_1049 && (final == 0x68 || final == 0x6C)
    ensures Feed(u, t, [final])
         == Term(SetPrivateMode(t.display, 1049, final == 0x68),
                 t.parser.(csi := [], state := Ground))
  {
    Mode1049();
    var after := SetPrivateMode(t.display, 1049, final == 0x68);
    assert SetPrivateModes(t.display, [1049], final == 0x68) == SetPrivateModes(after, [], final == 0x68) == after;
    assert Feed(u, t, [final]) == Consume(u, t, final);
  }

  /** `ESC [ ? 1049` and `h` or `l`, read in the ground state. */
  lemma SwitchBytes(u: Unicode, t: Term, final: byte)
    requires Ok(t) && t.parser.state.Ground? && (final == 0x68 || final == 0x6C)
    ensures Feed(u, t, CSI_1049 + [final])
         == Term(SetPrivateMode(t.display, 1049, final == 0x68),
                 t.parser.(pending := [], pendingLength := 0, csi := []))
  {
    IntroducerBytes(u, t);
    FeedInTwo(u, t, [0x1B, 0x5B], MODE_1049);
    CollectParameters(u, Feed(u, t, [0x1B, 0x5B]), MODE_1049);
    assert [] + MODE_1049 == MODE_1049;
    FeedInTwo(u, t, CSI_1049, [final]);
    FinalByte(u, Feed(u, t, CSI_1049), final);
  }

  /** The same over bytes alone: `ESC [ ? 1049 h`, output, `ESC [ ? 1049 l`,
      both switches read in the ground state. */
  lemma AlternateScreenBytesLeaveNoTrace(u: Unicode, t: Term, body: seq<byte>)
    requires Ok(t) && t.parser.state.Ground? && t.display.saved.None?
    requires var p := t.parser.(pending := [], pendingLength := 0, csi := []);
             Never(p, body, EndsAlternate) && ParserAfter(p, body).state.Ground?
    ensures var r := Feed(u, t, CSI_1049 + [0x68] + body + (CSI_1049 + [0x6C])).display;
            && SamePrimary(t.display, r) && r.screen == t.display.screen
            && r.cursor == t.display.cursor.(wrapPending := false)
  {
    var start := t.(parser := t.parser.(pending := [], pendingLength := 0, csi := []));
    var opening := CSI_1049 + [0x68];
    SwitchBytes(u, t, 0x68);
    var entered := Feed(u, t, opening);
    assert entered == start.(display := EnterAlternate(t.display, true));
    FeedParser(u, entered, body);
    SwitchBytes(u, Feed(u, entered, body), 0x6C);
    FeedInTwo(u, t, opening, body);
    FeedInTwo(u, t, opening + body, CSI_1049 + [0x6C]);
    AlternateScreenLeavesNoTrace(u, start, body, true);
  }
}
