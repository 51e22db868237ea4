/**
 What a reader sees of a row: every glyph in its place, in the colours and with the
 modifiers its span and its row ask for.
 */
module StyleLaws {
  import opened Prelude
  import opened Terminals

  /** `pen` is what the span asks for over what its row asks for: the span's colour
      where it names one, and of the row's modifiers those the span does not take off. */
  ghost predicate Wears(pen: Pen, row: Style, span: Style) {
    && pen.fore == (if span.fore.Some? then span.fore else row.fore)
    && pen.back == (if span.back.Some? then span.back else row.back)
    && (forall m :: m in pen.modifiers <==> m in span.add || (m in row.add && m !in span.sub))
  }

  /** The glyph leads at `x` and continues over the rest of its columns. */
  ghost predicate GlyphAt(cells: Row, x: nat, g: Glyph, row: Style, span: Style) {
    && x + g.extra < |cells|
    && cells[x].Cell? && cells[x].text == g.text && Wears(cells[x].pen, row, span)
    && (forall i :: x < i <= x + g.extra ==> cells[i] == Continuation)
  }

  lemma {:induction false} PatchWears(row: Style, span: Style)
    ensures Wears(PenOf(Patch(row, span)), row, span)
  {
  }

  lemma {:induction false} TextFirst(text: seq<Glyph>, pen: Pen)
    requires text != []
    ensures TextWidth(text[..0]) == 0 && text[0].extra < |Cells(text, pen)|
    ensures Cells(text, pen)[..text[0].extra + 1] == GlyphCells(text[0], pen)
    ensures Cells(text, pen) == GlyphCells(text[0], pen) + Cells(text[1..], pen)
  {
    hide GlyphCells;
  }

  lemma {:induction false} TextAt(text: seq<Glyph>, pen: Pen, j: nat)
    requires j < |text|
    ensures TextWidth(text[..j]) + text[j].extra < |Cells(text, pen)|
    ensures Cells(text, pen)[TextWidth(text[..j])..TextWidth(text[..j]) + text[j].extra + 1] == GlyphCells(text[j], pen)
    decreases j
  {
    hide GlyphCells, Cells, TextWidth;
    TextFirst(text, pen);
    if j > 0 {
      TextAt(text[1..], pen, j - 1);
      WidthNext(text, j);
      Shifted(GlyphCells(text[0], pen), Cells(text[1..], pen), TextWidth(text[1..][..j - 1]), text[j].extra + 1);
    }
  }

  lemma {:induction false} WidthNext(text: seq<Glyph>, j: nat)
    requires 0 < j < |text|
    ensures TextWidth(text[..j]) == text[0].extra + 1 + TextWidth(text[1..][..j - 1])
  {
    assert text[..j][1..] == text[1..][..j - 1];
  }

  lemma {:induction false} Shifted(head: Row, tail: Row, x: nat, n: nat)
    requires x + n <= |tail|
    ensures (head + tail)[|head| + x..|head| + x + n] == tail[x..x + n]
  {
  }

  lemma {:induction false} SpansNext(spans: seq<Span>, k: nat)
    requires 0 < k < |spans|
    ensures SpansWidth(spans[..k]) == TextWidth(spans[0].text) + SpansWidth(spans[1..][..k - 1])
  {
    hide TextWidth;
    assert spans[..k][1..] == spans[1..][..k - 1];
  }

  lemma {:induction false} SpanAt(spans: seq<Span>, base: Style, k: nat)
    requires k < |spans|
    ensures SpansWidth(spans[..k]) + TextWidth(spans[k].text) <= |SpanCells(spans, base)|
    ensures SpanCells(spans, base)[SpansWidth(spans[..k])..SpansWidth(spans[..k]) + TextWidth(spans[k].text)]
         == Cells(spans[k].text, PenOf(Patch(base, spans[k].style)))
    decreases k
  {
    hide Cells, Patch, PenOf, TextWidth;
    if k > 0 {
      var head, tail := Cells(spans[0].text, PenOf(Patch(base, spans[0].style))), SpanCells(spans[1..], base);
      SpanAt(spans[1..], base, k - 1);
      SpansNext(spans, k);
      Shifted(head, tail, SpansWidth(spans[1..][..k - 1]), TextWidth(spans[k].text));
    }
  }

  /** The columns of glyph `j` of span `k`, among all the spans' cells. */
  lemma {:induction false} GlyphOfSpan(spans: seq<Span>, base: Style, k: nat, j: nat)
    requires k < |spans| && j < |spans[k].text|
    ensures var x, g := SpansWidth(spans[..k]) + TextWidth(spans[k].text[..j]), spans[k].text[j];
            && x + g.extra < |SpanCells(spans, base)|
            && SpanCells(spans, base)[x..x + g.extra + 1] == GlyphCells(g, PenOf(Patch(base, spans[k].style)))
  {
    hide Cells, Patch, PenOf, TextWidth, SpansWidth, SpanCells, GlyphCells;
    var span := spans[k];
    var pen := PenOf(Patch(base, span.style));
    SpanAt(spans, base, k);
    TextAt(span.text, pen, j);
    GlyphIn(SpanCells(spans, base), Cells(span.text, pen), SpansWidth(spans[..k]), TextWidth(span.text[..j]), span.text[j], pen);
  }

  /** A written row shows glyph `j` of span `k` after everything before it, styled as
      its span over its row asks; beyond its last glyph it is blank and plain. */
  lemma {:induction false} RowShows(line: Line, width: nat, k: nat, j: nat)
    requires Fits(line, width) && k < |line.spans| && j < |line.spans[k].text|
    ensures var span := line.spans[k];
            GlyphAt(Render(line, width), SpansWidth(line.spans[..k]) + TextWidth(span.text[..j]), span.text[j], line.style, span.style)
    ensures forall x :: SpansWidth(line.spans) <= x < width ==> Render(line, width)[x] == Cell(" ", Pen(None, None, {}))
  {
    hide Cells, Patch, PenOf, TextWidth, SpansWidth, SpanCells, Wears, GlyphCells, GlyphAt;
    var span, all, row := line.spans[k], SpanCells(line.spans, line.style), Render(line, width);
    var pen, x := PenOf(Patch(line.style, span.style)), SpansWidth(line.spans[..k]) + TextWidth(span.text[..j]);
    GlyphOfSpan(line.spans, line.style, k, j);
    assert all == row[0..|all|];
    GlyphIn(row, all, 0, x, span.text[j], pen);
    PatchWears(line.style, span.style);
    GlyphShows(row, x, span.text[j], pen, line.style, span.style);
  }

  /** A glyph of a part is one of the whole. */
  lemma {:induction false} GlyphIn(whole: Row, part: Row, x: nat, y: nat, g: Glyph, pen: Pen)
    requires x + |part| <= |whole| && part == whole[x..x + |part|]
    requires y + g.extra < |part| && part[y..y + g.extra + 1] == GlyphCells(g, pen)
    ensures x + y + g.extra < |whole| && whole[x + y..x + y + g.extra + 1] == GlyphCells(g, pen)
  {
    hide GlyphCells;
    SliceOfSlice(whole, x, |part|, y, g.extra + 1);
  }

  lemma {:induction false} SliceOfSlice(whole: Row, x: nat, m: nat, y: nat, n: nat)
    requires x + m <= |whole| && y + n <= m
    ensures whole[x..x + m][y..y + n] == whole[x + y..x + y + n]
  {
    var part, mine, other := whole[x..x + m], whole[x..x + m][y..y + n], whole[x + y..x + y + n];
    assert |mine| == |other|;
    forall i | 0 <= i < n ensures mine[i] == other[i] {
      assert mine[i] == part[y + i] == whole[x + (y + i)];
      assert other[i] == whole[(x + y) + i];
    }
  }

  lemma {:induction false} GlyphShows(cells: Row, x: nat, g: Glyph, pen: Pen, row: Style, span: Style)
    requires x + g.extra < |cells| && cells[x..x + g.extra + 1] == GlyphCells(g, pen) && Wears(pen, row, span)
    ensures GlyphAt(cells, x, g, row, span)
  {
    hide Wears;
    var own := cells[x..x + g.extra + 1];
    assert own[0] == cells[x] && own[0] == Cell(g.text, pen);
    forall i | x < i <= x + g.extra ensures cells[i] == Continuation {
      assert own[i - x] == cells[i];
    }
  }
}
