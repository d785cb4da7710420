/** `wrap_text`, over decoded glyphs and their cell widths. */
module LineWrap {
  import opened Octets

  datatype Glyph = Glyph(text: Text, width: nat)

  type Line = seq<Glyph>

  const SPACE := Glyph(" ", 1)
  const QUESTION := Glyph("?", 1)

  /** What decoding produces: one glyph is the space, and none is wider than two cells. */
  predicate IsGlyph(g: Glyph) { g.text != [] && g.width <= 2 && (g.text == " " ==> g == SPACE) }

  predicate AreGlyphs(line: Line) { forall i :: 0 <= i < |line| ==> IsGlyph(line[i]) }

  /** `text_width`. */
  function Width(line: Line): nat
  {
    if line == [] then 0 else Width(line[..|line| - 1]) + line[|line| - 1].width
  }

  /** A glyph too wide for any line is shown as a question mark. */
  function Shown(g: Glyph, width: nat): Glyph { if g.width > width then QUESTION else g }

  function ShownAll(line: Line, width: nat): Line
  {
    seq(|line|, i requires 0 <= i < |line| => Shown(line[i], width))
  }

  /** `rfind(' ')`, with the length standing for `npos`. */
  function LastSpace(line: Line): (k: nat)
    ensures k <= |line|
    ensures k < |line| ==> line[k].text == " " && forall j :: k < j < |line| ==> line[j].text != " "
    ensures k == |line| ==> forall j :: 0 <= j < |line| ==> line[j].text != " "
  {
    if line == [] then 0
    else
      var n := |line| - 1;
      if line[n].text == " " then n
      else
        var k := LastSpace(line[..n]);
        if k == n then |line| else k
  }

  /** A finished line, and whether a space was dropped after it. */
  datatype Piece = Piece(line: Line, spaced: bool)

  predicate Overflows(line: Line, g: Glyph, width: nat) { Width(line) + g.width > width && line != [] }

  predicate BreaksAtSpace(line: Line, width: nat)
  {
    var k := LastSpace(line);
    k < |line| && Width(line[..k]) >= width / 2
  }

  function Broken(line: Line, width: nat): Piece
  {
    if BreaksAtSpace(line, width) then Piece(line[..LastSpace(line)], true) else Piece(line, false)
  }

  function Carried(line: Line, width: nat): Line
  {
    if BreaksAtSpace(line, width) then line[LastSpace(line) + 1..] else []
  }

  function WrapFrom(glyphs: Line, width: nat, line: Line): seq<Piece>
    decreases |glyphs|
  {
    if glyphs == [] then [Piece(line, false)]
    else
      var g := Shown(glyphs[0], width);
      if Overflows(line, glyphs[0], width) then
        [Broken(line, width)] + WrapFrom(glyphs[1..], width, Carried(line, width) + [g])
      else WrapFrom(glyphs[1..], width, line + [g])
  }

  function Wrap(glyphs: Line, width: int): seq<Piece>
  {
    if width < 1 then [] else WrapFrom(glyphs, width, [])
  }

  function LinesOf(pieces: seq<Piece>): seq<Line>
  {
    seq(|pieces|, i requires 0 <= i < |pieces| => pieces[i].line)
  }

  /** The break in `wrap_text`: at the last space when enough comes before it, or else here. */
  method BreakLine(line: Line, width: nat) returns (broken: Line, rest: Line, used: nat)
    ensures broken == Broken(line, width).line && rest == Carried(line, width) && used == Width(rest)
  {
    NoWidth();
    var space := LastSpace(line);
    if space != |line| && Width(line[..space]) >= width / 2 {
      broken := line[..space];
      rest := line[space + 1..];
      used := Width(rest);
    } else {
      broken := line;
      rest := [];
      used := 0;
    }
  }

  /** `wrap_text`. */
  method WrapText(glyphs: Line, width: int) returns (lines: seq<Line>)
    ensures lines == LinesOf(Wrap(glyphs, width))
  {
    hide Width, WrapFrom, LinesOf, Broken, Carried;
    if width < 1 {
      LinesOfNone();
      return [];
    }
    lines := [];
    var line: Line := [];
    var used := 0;
    NoWidth();
    assert glyphs[0..] == glyphs;
    for i := 0 to |glyphs|
      invariant used == Width(line) && (lines != [] ==> line != [])
      invariant lines + LinesOf(WrapFrom(glyphs[i..], width, line)) == LinesOf(Wrap(glyphs, width))
    {
      var glyph := glyphs[i];
      WrapStep(glyphs[i..], width, line);
      assert glyphs[i..][1..] == glyphs[i + 1..];
      if used + glyph.width > width && line != [] {
        var broken;
        broken, line, used := BreakLine(line, width);
        lines := lines + [broken];
      }
      WidthAppend(line, Shown(glyph, width));
      if glyph.width > width {
        line := line + [QUESTION];
        used := used + 1;
      } else {
        line := line + [glyph];
        used := used + glyph.width;
      }
    }
    assert glyphs[|glyphs|..] == [];
    LastLine(width, line);
    if line != [] || lines == [] { lines := lines + [line]; }
  }

  lemma LinesOfNone()
    ensures LinesOf([]) == []
  {
  }

  lemma LastLine(width: nat, line: Line)
    ensures LinesOf(WrapFrom([], width, line)) == [line]
  {
  }

  /** One turn of the loop. */
  lemma {:induction false} WrapStep(glyphs: Line, width: nat, line: Line)
    requires glyphs != []
    ensures var g := Shown(glyphs[0], width);
      LinesOf(WrapFrom(glyphs, width, line)) ==
        if Overflows(line, glyphs[0], width) then
          [Broken(line, width).line] + LinesOf(WrapFrom(glyphs[1..], width, Carried(line, width) + [g]))
        else LinesOf(WrapFrom(glyphs[1..], width, line + [g]))
  {
    hide Width, LastSpace, Broken, Carried;
    var g := Shown(glyphs[0], width);
    LinesOfCons(Broken(line, width), WrapFrom(glyphs[1..], width, Carried(line, width) + [g]));
  }

  lemma NoWidth()
    ensures Width([]) == 0
  {
  }

  lemma WidthAppend(line: Line, g: Glyph)
    ensures Width(line + [g]) == Width(line) + g.width
  {
    assert (line + [g])[..|line|] == line;
  }

  lemma {:induction false} LinesOfCons(first: Piece, rest: seq<Piece>)
    ensures LinesOf([first] + rest) == [first.line] + LinesOf(rest)
  {
  }

  lemma {:induction false} WidthSplits(a: Line, b: Line)
    ensures Width(a + b) == Width(a) + Width(b)
    decreases |b|
  {
    if b == [] {
      assert a + b == a;
    } else {
      var n := |b| - 1;
      WidthSplits(a, b[..n]);
      assert (a + b)[..|a + b| - 1] == a + b[..n];
    }
  }

  // ---- the width bound ----

  /** What is carried over a space break leaves room for one more glyph: the part before the space
      takes at least half the width. */
  lemma {:induction false} CarriedLeavesRoom(line: Line, width: nat, g: Glyph)
    requires width >= 1 && AreGlyphs(line) && Width(line) <= width && g.width <= 2 && g.width <= width
    ensures Width(Carried(line, width)) + g.width <= width && Width(Broken(line, width).line) <= width
    ensures AreGlyphs(Carried(line, width))
  {
    hide Width;
    NoWidth();
    if BreaksAtSpace(line, width) {
      var k := LastSpace(line);
      assert line == line[..k] + [line[k]] + line[k + 1..];
      assert line[k] == SPACE;
      WidthSplits(line[..k] + [line[k]], line[k + 1..]);
      WidthAppend(line[..k], line[k]);
    }
  }

  lemma ShownIsGlyph(g: Glyph, width: nat)
    requires IsGlyph(g) && width >= 1
    ensures IsGlyph(Shown(g, width)) && Shown(g, width).width <= width
  {
  }

  /** No line is wider than the width. */
  lemma {:induction false} LinesFit(glyphs: Line, width: nat, line: Line)
    requires width >= 1 && AreGlyphs(glyphs) && AreGlyphs(line) && Width(line) <= width
    ensures forall i :: 0 <= i < |WrapFrom(glyphs, width, line)| ==> Width(WrapFrom(glyphs, width, line)[i].line) <= width
    decreases |glyphs|
  {
    hide Width, LastSpace, Broken, Carried, IsGlyph;
    if glyphs != [] {
      var g := Shown(glyphs[0], width);
      ShownIsGlyph(glyphs[0], width);
      GlyphsAreSmall(g);
      if Overflows(line, glyphs[0], width) {
        CarriedLeavesRoom(line, width, g);
        WidthAppend(Carried(line, width), g);
        LinesFit(glyphs[1..], width, Carried(line, width) + [g]);
      } else {
        NoWidth();
        WidthAppend(line, g);
        LinesFit(glyphs[1..], width, line + [g]);
      }
    }
  }

  lemma GlyphsAreSmall(g: Glyph)
    requires IsGlyph(g)
    ensures g.width <= 2
  {
  }

  // ---- nothing is lost ----

  /** The lines put together again, with the dropped spaces. */
  function Rejoin(pieces: seq<Piece>): Line
  {
    if pieces == [] then []
    else pieces[0].line + (if pieces[0].spaced then [SPACE] else []) + Rejoin(pieces[1..])
  }

  lemma {:induction false} BrokenRejoins(line: Line, width: nat)
    requires AreGlyphs(line)
    ensures var b := Broken(line, width);
            b.line + (if b.spaced then [SPACE] else []) + Carried(line, width) == line
  {
    if BreaksAtSpace(line, width) {
      var k := LastSpace(line);
      assert IsGlyph(line[k]);
      assert line == line[..k] + [line[k]] + line[k + 1..];
    }
  }

  lemma {:induction false} RejoinCons(b: Piece, rest: seq<Piece>)
    ensures Rejoin([b] + rest) == b.line + (if b.spaced then [SPACE] else []) + Rejoin(rest)
    ensures Rejoin([]) == []
  {
    assert ([b] + rest)[1..] == rest;
  }

  lemma {:induction false} ShownCons(glyphs: Line, width: nat)
    requires glyphs != []
    ensures ShownAll(glyphs, width) == [Shown(glyphs[0], width)] + ShownAll(glyphs[1..], width)
  {
  }

  /** Putting back the one space dropped at each space break gives the input glyphs in order, the
      over-wide ones as question marks. */
  lemma {:induction false} NothingLost(glyphs: Line, width: nat, line: Line)
    requires width >= 1 && AreGlyphs(glyphs) && AreGlyphs(line)
    ensures Rejoin(WrapFrom(glyphs, width, line)) == line + ShownAll(glyphs, width)
    decreases |glyphs|
  {
    hide Width, LastSpace, Broken, Carried, IsGlyph, Rejoin, Shown, Overflows;
    if glyphs == [] {
      RejoinCons(Piece(line, false), []);
      assert [Piece(line, false)] + [] == [Piece(line, false)];
    } else {
      var g := Shown(glyphs[0], width);
      ShownIsGlyph(glyphs[0], width);
      ShownCons(glyphs, width);
      if Overflows(line, glyphs[0], width) {
        var carried := Carried(line, width);
        BrokenRejoins(line, width);
        CarriedGlyphs(line, width);
        NothingLost(glyphs[1..], width, carried + [g]);
        RejoinCons(Broken(line, width), WrapFrom(glyphs[1..], width, carried + [g]));
      } else {
        NothingLost(glyphs[1..], width, line + [g]);
      }
    }
  }

  lemma {:induction false} CarriedGlyphs(line: Line, width: nat)
    requires AreGlyphs(line)
    ensures AreGlyphs(Carried(line, width))
  {
  }

  // ---- no break is early ----

  function Extent(p: Piece): nat { Width(p.line) + if p.spaced then 1 else 0 }

  /** Two adjacent lines, with the spaces dropped after them, do not fit on one. */
  ghost predicate Full(pieces: seq<Piece>, width: nat)
  {
    forall i :: 0 <= i < |pieces| - 1 ==> Extent(pieces[i]) + Extent(pieces[i + 1]) > width
  }

  lemma {:induction false} BrokenWidth(line: Line, width: nat)
    requires AreGlyphs(line)
    ensures var b := Broken(line, width);
            Width(b.line) + (if b.spaced then 1 else 0) + Width(Carried(line, width)) == Width(line)
  {
    hide Width;
    NoWidth();
    BrokenRejoins(line, width);
    var b := Broken(line, width);
    var spaces: Line := if b.spaced then [SPACE] else [];
    WidthSplits(b.line + spaces, Carried(line, width));
    WidthSplits(b.line, spaces);
    WidthAppend([], SPACE);
    assert [] + [SPACE] == [SPACE];
  }

  lemma {:induction false} PrefixIsNarrower(a: Line, b: Line)
    requires a <= b
    ensures Width(a) <= Width(b)
  {
    assert b == a + b[|a|..];
    WidthSplits(a, b[|a|..]);
  }

  predicate NoSpaces(line: Line) { forall i :: 0 <= i < |line| ==> line[i].text != " " }

  /** A line's first glyphs stay on it, up to and including the first space among them. */
  lemma {:induction false} FirstPieceCovers(glyphs: Line, width: nat, line: Line, q: Line)
    requires width >= 1 && AreGlyphs(line) && AreGlyphs(glyphs)
    requires q != [] && q <= line && NoSpaces(q[..|q| - 1])
    ensures WrapFrom(glyphs, width, line) != [] && Extent(WrapFrom(glyphs, width, line)[0]) >= Width(q)
    decreases |glyphs|
  {
    hide Width, IsGlyph;
    if glyphs == [] {
      PrefixIsNarrower(q, line);
    } else if Overflows(line, glyphs[0], width) {
      BrokenCovers(line, width, q);
    } else {
      ShownIsGlyph(glyphs[0], width);
      FirstPieceCovers(glyphs[1..], width, line + [Shown(glyphs[0], width)], q);
    }
  }

  lemma {:induction false} BrokenCovers(line: Line, width: nat, q: Line)
    requires AreGlyphs(line) && q != [] && q <= line && NoSpaces(q[..|q| - 1])
    ensures Extent(Broken(line, width)) >= Width(q)
  {
    hide Width;
    if BreaksAtSpace(line, width) {
      var k := LastSpace(line);
      assert IsGlyph(line[k]);
      WidthAppend(line[..k], line[k]);
      PrefixIsNarrower(q, line[..k] + [line[k]]);
    } else {
      PrefixIsNarrower(q, line);
    }
  }

  lemma {:induction false} CarriedHasNoSpaces(line: Line, width: nat)
    ensures NoSpaces(Carried(line, width))
  {
  }

  /** With two cells or more no two adjacent lines would fit on one. */
  lemma {:induction false} FullFromTwoCells(glyphs: Line, width: nat, line: Line)
    requires width >= 2 && AreGlyphs(glyphs) && AreGlyphs(line)
    ensures Full(WrapFrom(glyphs, width, line), width)
    decreases |glyphs|
  {
    hide Width, LastSpace, Broken, Carried, IsGlyph, Extent, NoSpaces;
    if glyphs != [] {
      var g := Shown(glyphs[0], width);
      ShownIsGlyph(glyphs[0], width);
      GlyphsAreSmall(glyphs[0]);
      if Overflows(line, glyphs[0], width) {
        var b, carried := Broken(line, width), Carried(line, width);
        CarriedGlyphs(line, width);
        FullFromTwoCells(glyphs[1..], width, carried + [g]);
        CarriedHasNoSpaces(line, width);
        assert (carried + [g])[..|carried + [g]| - 1] == carried;
        FirstPieceCovers(glyphs[1..], width, carried + [g], carried + [g]);
        WidthAppend(carried, g);
        BrokenExtent(line, width);
      } else {
        FullFromTwoCells(glyphs[1..], width, line + [g]);
      }
    }
  }

  lemma {:induction false} BrokenExtent(line: Line, width: nat)
    requires AreGlyphs(line)
    ensures Extent(Broken(line, width)) + Width(Carried(line, width)) == Width(line)
  {
    hide Width;
    BrokenWidth(line, width);
  }

  // ---- breaks come where they should ----

  /** A break between two lines is at a space with at least half the width before it, and what follows up
      to the next space would not have fitted; or else no space of the line has as much before it. */
  ghost predicate BreaksRightly(piece: Piece, next: Piece, width: nat)
  {
    var line := piece.line;
    if piece.spaced then
      && Width(line) >= width / 2
      && forall k :: 0 <= k < |next.line| && next.line[k].text == " " ==> Width(line) + 1 + Width(next.line[..k + 1]) > width
    else forall k :: 0 <= k < |line| && line[k].text == " " ==> Width(line[..k]) < width / 2
  }

  ghost predicate AllBreakRightly(pieces: seq<Piece>, width: nat)
  {
    forall i :: 0 <= i < |pieces| - 1 ==> BreaksRightly(pieces[i], pieces[i + 1], width)
  }

  /** The first space of a line comes after what the line begins with, when that has none. */
  lemma {:induction false} FirstSpaceCovers(glyphs: Line, width: nat, line: Line, q: Line)
    requires q != [] && q <= line && NoSpaces(q[..|q| - 1])
    ensures WrapFrom(glyphs, width, line) != []
    ensures var first := WrapFrom(glyphs, width, line)[0].line;
      forall k :: 0 <= k < |first| && first[k].text == " " ==> Width(first[..k + 1]) >= Width(q)
    decreases |glyphs|
  {
    hide Width;
    if glyphs != [] && !Overflows(line, glyphs[0], width) {
      FirstSpaceCovers(glyphs[1..], width, line + [Shown(glyphs[0], width)], q);
    } else {
      var first := WrapFrom(glyphs, width, line)[0].line;
      forall k | 0 <= k < |first| && first[k].text == " " ensures Width(first[..k + 1]) >= Width(q) {
        assert first[..k + 1] == line[..k + 1];
        assert k >= |q| - 1 by { assert forall j :: 0 <= j < |q| - 1 ==> q[..|q| - 1][j] == line[j]; }
        assert q <= first[..k + 1];
        PrefixIsNarrower(q, first[..k + 1]);
      }
    }
  }

  lemma {:induction false} SpacesBefore(line: Line, width: nat)
    requires !BreaksAtSpace(line, width)
    ensures forall k :: 0 <= k < |line| && line[k].text == " " ==> Width(line[..k]) < width / 2
  {
    hide Width;
    forall k | 0 <= k < |line| && line[k].text == " " ensures Width(line[..k]) < width / 2 {
      PrefixIsNarrower(line[..k], line[..LastSpace(line)]);
    }
  }

  /** What overflows a line still does when it is shown as it will be, if the line has a space in it. */
  lemma {:induction false} StillOverflows(line: Line, g: Glyph, width: nat)
    requires width >= 1 && AreGlyphs(line) && IsGlyph(g) && Overflows(line, g, width) && BreaksAtSpace(line, width)
    ensures Width(line) + Shown(g, width).width > width
  {
    hide Width;
    if g.width > width {
      BrokenRejoins(line, width);
      var b := Broken(line, width);
      WidthSplits(b.line + [SPACE], Carried(line, width));
      WidthAppend(b.line, SPACE);
    }
  }

  lemma {:induction false} BrokenRightly(glyphs: Line, width: nat, line: Line)
    requires width >= 1 && AreGlyphs(line) && glyphs != [] && IsGlyph(glyphs[0]) && Overflows(line, glyphs[0], width)
    ensures var rest := WrapFrom(glyphs[1..], width, Carried(line, width) + [Shown(glyphs[0], width)]);
            rest != [] && BreaksRightly(Broken(line, width), rest[0], width)
  {
    hide Width, LastSpace, IsGlyph, Shown, WrapFrom, Overflows;
    var g, carried := Shown(glyphs[0], width), Carried(line, width);
    var q := carried + [g];
    CarriedHasNoSpaces(line, width);
    assert q[..|q| - 1] == carried;
    FirstSpaceCovers(glyphs[1..], width, q, q);
    WidthAppend(carried, g);
    if BreaksAtSpace(line, width) {
      StillOverflows(line, glyphs[0], width);
      BrokenWidth(line, width);
    } else {
      SpacesBefore(line, width);
    }
  }

  lemma {:induction false} EveryBreakIsRight(glyphs: Line, width: nat, line: Line)
    requires width >= 1 && AreGlyphs(glyphs) && AreGlyphs(line)
    ensures AllBreakRightly(WrapFrom(glyphs, width, line), width)
    decreases |glyphs|
  {
    hide Width, LastSpace, Broken, Carried, IsGlyph, BreaksRightly;
    if glyphs != [] {
      var g := Shown(glyphs[0], width);
      ShownIsGlyph(glyphs[0], width);
      if Overflows(line, glyphs[0], width) {
        var carried := Carried(line, width);
        CarriedGlyphs(line, width);
        EveryBreakIsRight(glyphs[1..], width, carried + [g]);
        BrokenRightly(glyphs, width, line);
      } else {
        EveryBreakIsRight(glyphs[1..], width, line + [g]);
      }
    }
  }

  // ---- a single cell ----

  /** The first glyph that is at least one cell wide. */
  function FirstVisible(glyphs: Line): (k: nat)
    ensures k <= |glyphs| && forall j :: 0 <= j < k ==> glyphs[j].width == 0
    ensures k < |glyphs| ==> glyphs[k].width > 0
  {
    if glyphs == [] || glyphs[0].width > 0 then 0 else 1 + FirstVisible(glyphs[1..])
  }

  /** Zero-width glyphs, and then one too wide for any line. */
  predicate WideAfterZeroWidth(glyphs: Line, width: nat)
  {
    var k := FirstVisible(glyphs);
    0 < k < |glyphs| && glyphs[k].width > width
  }

  lemma {:induction false} CarriedHasNoWidth(line: Line)
    requires AreGlyphs(line) && Width(line) <= 1
    ensures Width(Carried(line, 1)) == 0
  {
    hide Width;
    NoWidth();
    if BreaksAtSpace(line, 1) {
      var k := LastSpace(line);
      assert line == line[..k] + [line[k]] + line[k + 1..];
      assert line[k] == SPACE;
      WidthSplits(line[..k] + [line[k]], line[k + 1..]);
      WidthAppend(line[..k], line[k]);
    }
  }

  /** Once something takes the cell, every line has exactly one. */
  lemma {:induction false} OneCellEach(glyphs: Line, line: Line)
    requires AreGlyphs(glyphs) && AreGlyphs(line) && Width(line) == 1
    ensures forall i :: 0 <= i < |WrapFrom(glyphs, 1, line)| ==> Extent(WrapFrom(glyphs, 1, line)[i]) == 1
    decreases |glyphs|
  {
    hide Width, LastSpace, Broken, Carried, IsGlyph;
    if glyphs != [] {
      var g := Shown(glyphs[0], 1);
      ShownIsGlyph(glyphs[0], 1);
      if Overflows(line, glyphs[0], 1) {
        CarriedGlyphs(line, 1);
        CarriedHasNoWidth(line);
        BrokenExtent(line, 1);
        WidthAppend(Carried(line, 1), g);
        OneCellEach(glyphs[1..], Carried(line, 1) + [g]);
      } else {
        NoWidth();
        WidthAppend(line, g);
        OneCellEach(glyphs[1..], line + [g]);
      }
    }
  }

  lemma {:induction false} NoSpaceWithoutWidth(line: Line)
    requires AreGlyphs(line) && Width(line) == 0
    ensures Broken(line, 1) == Piece(line, false) && Carried(line, 1) == []
  {
    hide Width;
    var k := LastSpace(line);
    if k < |line| {
      assert line == line[..k] + [line[k]] + line[k + 1..];
      assert line[k] == SPACE;
      WidthSplits(line[..k] + [line[k]], line[k + 1..]);
      WidthAppend(line[..k], line[k]);
      assert false;
    }
  }

  /** While nothing takes the cell, it is the first glyph that would that decides. */
  lemma {:induction false} OneCell(glyphs: Line, line: Line)
    requires AreGlyphs(glyphs) && AreGlyphs(line) && Width(line) == 0
    ensures var k := FirstVisible(glyphs);
      Full(WrapFrom(glyphs, 1, line), 1) <==> !(k < |glyphs| && glyphs[k].width > 1 && (line != [] || k > 0))
    decreases |glyphs|
  {
    hide Width, LastSpace, Broken, Carried, IsGlyph, Extent;
    if glyphs != [] {
      var g := Shown(glyphs[0], 1);
      ShownIsGlyph(glyphs[0], 1);
      WidthAppend(line, g);
      if Overflows(line, glyphs[0], 1) {
        NoSpaceWithoutWidth(line);
        NoWidth();
        WidthAppend([], g);
        assert [] + [g] == [g];
        OneCellEach(glyphs[1..], [g]);
        BrokenExtent(line, 1);
        var pieces := WrapFrom(glyphs, 1, line);
        assert pieces[1..] == WrapFrom(glyphs[1..], 1, [g]);
        WrapHasLine(glyphs[1..], 1, [g]);
        assert Extent(pieces[0]) + Extent(pieces[1]) == 1;
      } else if glyphs[0].width == 0 {
        OneCell(glyphs[1..], line + [g]);
      } else {
        OneCellEach(glyphs[1..], line + [g]);
      }
    }
  }

  lemma {:induction false} WrapHasLine(glyphs: Line, width: nat, line: Line)
    ensures WrapFrom(glyphs, width, line) != []
    decreases |glyphs|
  {
    hide Width, LastSpace, Broken, Carried;
    if glyphs != [] && !Overflows(line, glyphs[0], width) {
      WrapHasLine(glyphs[1..], width, line + [Shown(glyphs[0], width)]);
    }
  }

  lemma {:induction false} NothingTooWide(glyphs: Line, width: nat)
    requires width >= 2 && AreGlyphs(glyphs)
    ensures !WideAfterZeroWidth(glyphs, width)
  {
  }

  /** No two adjacent lines would fit on one, with the spaces dropped after them: exactly unless the
      first visible glyph is too wide for any line and comes after zero-width ones. */
  lemma {:induction false} NoEarlyBreak(glyphs: Line, width: nat)
    requires width >= 1 && AreGlyphs(glyphs)
    ensures Full(Wrap(glyphs, width), width) <==> !WideAfterZeroWidth(glyphs, width)
  {
    hide WrapFrom, IsGlyph, Full;
    if width == 1 {
      OneCell(glyphs, []);
    } else {
      NothingTooWide(glyphs, width);
      FullFromTwoCells(glyphs, width, []);
    }
  }

  /** Such a text: on one cell the zero-width glyph gets a line to itself, although the question mark
      that stands for the wide one would have fitted after it. */
  lemma {:induction false} EarlyBreak()
    ensures var glyphs := [Glyph("z", 0), Glyph("w", 2)];
      && AreGlyphs(glyphs) && WideAfterZeroWidth(glyphs, 1)
      && LinesOf(Wrap(glyphs, 1)) == [[Glyph("z", 0)], [QUESTION]]
      && Width([Glyph("z", 0)] + [QUESTION]) <= 1
  {
    var z, w := Glyph("z", 0), Glyph("w", 2);
    var glyphs := [z, w];
    assert glyphs[1..] == [w] && [w][1..] == [];
    NoWidth();
    WidthAppend([], z);
    WidthAppend([z], QUESTION);
    assert [] + [z] == [z] && [] + [QUESTION] == [QUESTION];
    NoSpaceWithoutWidth([z]);
    assert WrapFrom([w], 1, [z]) == [Piece([z], false)] + WrapFrom([], 1, [QUESTION]);
    assert WrapFrom(glyphs, 1, []) == WrapFrom([w], 1, [z]);
    assert FirstVisible([w]) == 0 && FirstVisible(glyphs) == 1;
  }

  /** `wrap_text` as a whole. */
  lemma {:induction false} WrapIsRight(glyphs: Line, width: nat)
    requires width >= 1 && AreGlyphs(glyphs)
    ensures var pieces := Wrap(glyphs, width);
      && (forall i :: 0 <= i < |pieces| ==> Width(pieces[i].line) <= width)
      && Rejoin(pieces) == ShownAll(glyphs, width)
      && (Full(pieces, width) <==> !WideAfterZeroWidth(glyphs, width))
      && AllBreakRightly(pieces, width)
  {
    hide Width, WrapFrom, IsGlyph, Full, AllBreakRightly;
    NoWidth();
    LinesFit(glyphs, width, []);
    NothingLost(glyphs, width, []);
    NoEarlyBreak(glyphs, width);
    EveryBreakIsRight(glyphs, width, []);
  }
}
