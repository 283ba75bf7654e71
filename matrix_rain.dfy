/**
 * `components/animations/MatrixRain.tsx`: the `drops` array (one row index
 * per 14-pixel column) and the per-frame update in `drawMatrix`. The four
 * `Math.random()` results a column may consume in one frame are an input
 * record; drawing on the canvas is reduced to the list of glyphs drawn.
 */
module MatrixRain {

  const FontSize: nat := 14

  const MatrixChars: string := "ABCDEFGHIJKLMNOPQRSTUVWXYZ123456789@#$%^&*()*&^%+-/~{[|`]}"

  /** The number of columns for a canvas width: `Math.floor(width / fontSize)`. */
  function Columns(width: nat): (c: nat)
    ensures c * FontSize <= width < (c + 1) * FontSize
  {
    width / FontSize
  }

  /**
   * The draws for one column in one frame, in call order: column selection,
   * glyph choice, brightness, and reset (consulted only below the canvas).
   */
  datatype ColumnDraw = ColumnDraw(select: real, glyph: real, bright: real, reset: real)

  /** `Math.random()` lies in [0, 1). */
  predicate ValidDraw(c: ColumnDraw) {
    0.0 <= c.select < 1.0 && 0.0 <= c.glyph < 1.0 && 0.0 <= c.bright < 1.0 && 0.0 <= c.reset < 1.0
  }

  predicate Selected(c: ColumnDraw) {
    c.select > 0.975
  }

  /** `Math.floor(Math.random() * charArray.length)` always indexes the glyph list. */
  function GlyphIndex(g: real): (k: int)
    requires 0.0 <= g < 1.0
    ensures 0 <= k < |MatrixChars|
  {
    (g * |MatrixChars| as real).Floor
  }

  /** The new row of one column: unchanged, one further, or back to row 1 after falling off. */
  function NextDrop(d: int, c: ColumnDraw, height: nat): int {
    if !Selected(c) then d
    else if d * FontSize > height && c.reset > 0.95 then 1
    else d + 1
  }

  /** How one column can move. */
  lemma NextDropCases(d: int, c: ColumnDraw, height: nat)
    requires d >= 1
    ensures NextDrop(d, c, height) >= 1
    ensures !Selected(c) ==> NextDrop(d, c, height) == d
    ensures Selected(c) ==> NextDrop(d, c, height) == d + 1 || NextDrop(d, c, height) == 1
    ensures NextDrop(d, c, height) == 1 && Selected(c) ==> d * FontSize > height
    ensures NextDrop(d, c, height) < d ==> NextDrop(d, c, height) == 1 && d * FontSize > height && c.reset > 0.95
  {
  }

  /** One drawing frame's effect on the whole array. */
  function StepDrops(drops: seq<int>, draws: seq<ColumnDraw>, height: nat): (r: seq<int>)
    requires |draws| == |drops|
    ensures |r| == |drops|
  {
    seq(|drops|, i requires 0 <= i < |drops| => NextDrop(drops[i], draws[i], height))
  }

  predicate AllPositive(drops: seq<int>) {
    forall i :: 0 <= i < |drops| ==> drops[i] >= 1
  }

  /** A frame keeps every row at least 1, and leaves unselected columns alone. */
  lemma StepDropsKeepsRows(drops: seq<int>, draws: seq<ColumnDraw>, height: nat)
    requires |draws| == |drops| && AllPositive(drops)
    ensures AllPositive(StepDrops(drops, draws, height))
    ensures forall i :: 0 <= i < |drops| && !Selected(draws[i]) ==> StepDrops(drops, draws, height)[i] == drops[i]
    ensures forall i :: 0 <= i < |drops| && Selected(draws[i]) ==>
      StepDrops(drops, draws, height)[i] in {drops[i] + 1, 1}
  {
    forall i | 0 <= i < |drops| ensures StepDrops(drops, draws, height)[i] >= 1 {
      NextDropCases(drops[i], draws[i], height);
    }
  }

  /** A glyph on the canvas: its column, character, baseline y and whether it was drawn bright. */
  datatype Glyph = Glyph(column: nat, ch: char, y: int, bright: bool)

  /** The glyphs the first |drops| columns draw, in column order. */
  function Drawn(drops: seq<int>, draws: seq<ColumnDraw>): seq<Glyph>
    requires |draws| == |drops|
    requires forall i :: 0 <= i < |draws| ==> ValidDraw(draws[i])
    decreases |drops|
  {
    if |drops| == 0 then []
    else
      var k := |drops| - 1;
      assert ValidDraw(draws[k]);
      Drawn(drops[..k], draws[..k])
        + (if Selected(draws[k])
           then [Glyph(k, MatrixChars[GlyphIndex(draws[k].glyph)], drops[k] * FontSize, draws[k].bright > 0.9)]
           else [])
  }

  /** Extending the prefix by one column appends that column's glyph, if it draws. */
  lemma DrawnStep(drops: seq<int>, draws: seq<ColumnDraw>, i: nat)
    requires |draws| == |drops| && i < |drops|
    requires forall k :: 0 <= k < |draws| ==> ValidDraw(draws[k])
    ensures Drawn(drops[..i + 1], draws[..i + 1]) == Drawn(drops[..i], draws[..i])
      + (if Selected(draws[i])
         then [Glyph(i, MatrixChars[GlyphIndex(draws[i].glyph)], drops[i] * FontSize, draws[i].bright > 0.9)]
         else [])
  {
    assert drops[..i + 1][..i] == drops[..i];
    assert draws[..i + 1][..i] == draws[..i];
  }

  /** A glyph of column `g.column`, which draws, at that column's row and with a glyph-list character. */
  ghost predicate SoundGlyph(drops: seq<int>, draws: seq<ColumnDraw>, g: Glyph) {
    g.column < |drops| && g.column < |draws| && Selected(draws[g.column])
    && g.y == drops[g.column] * FontSize && g.ch in MatrixChars
  }

  /** Every glyph comes from a selected column, drawn at that column's row with a glyph-list character. */
  lemma {:induction false} DrawnGlyphsSound(drops: seq<int>, draws: seq<ColumnDraw>)
    requires |draws| == |drops|
    requires forall i :: 0 <= i < |draws| ==> ValidDraw(draws[i])
    ensures forall j :: 0 <= j < |Drawn(drops, draws)| ==> SoundGlyph(drops, draws, Drawn(drops, draws)[j])
    decreases |drops|
  {
    if |drops| > 0 {
      var k := |drops| - 1;
      DrawnGlyphsSound(drops[..k], draws[..k]);
      var prev := Drawn(drops[..k], draws[..k]);
      var gs := Drawn(drops, draws);
      assert gs[..|prev|] == prev;
      forall j | 0 <= j < |gs| ensures SoundGlyph(drops, draws, gs[j]) {
        if j < |prev| {
          assert SoundGlyph(drops[..k], draws[..k], prev[j]);
          var c := prev[j].column;
          assert gs[j] == prev[j];
          assert drops[..k][c] == drops[c] && draws[..k][c] == draws[c];
        }
      }
    }
  }

  /** The glyphs are in strictly increasing column order, so each column draws at most once. */
  lemma {:induction false} DrawnGlyphsOrdered(drops: seq<int>, draws: seq<ColumnDraw>)
    requires |draws| == |drops|
    requires forall i :: 0 <= i < |draws| ==> ValidDraw(draws[i])
    ensures forall j, l :: 0 <= j < l < |Drawn(drops, draws)| ==>
      Drawn(drops, draws)[j].column < Drawn(drops, draws)[l].column
    decreases |drops|
  {
    if |drops| > 0 {
      var k := |drops| - 1;
      DrawnGlyphsOrdered(drops[..k], draws[..k]);
      DrawnGlyphsSound(drops[..k], draws[..k]);
      var prev := Drawn(drops[..k], draws[..k]);
      var gs := Drawn(drops, draws);
      assert gs[..|prev|] == prev;
      forall j, l | 0 <= j < l < |gs| ensures gs[j].column < gs[l].column {
        assert SoundGlyph(drops[..k], draws[..k], prev[j]) && gs[j] == prev[j];
        if l < |prev| {
          assert gs[l] == prev[l];
        } else {
          assert gs[l].column == k;
        }
      }
    }
  }

  /** Some glyph of `gs` is drawn in column `i`. */
  ghost predicate ColumnDrawn(gs: seq<Glyph>, i: int) {
    exists j :: 0 <= j < |gs| && gs[j].column == i
  }

  /** Every selected column draws. */
  lemma {:induction false} DrawnGlyphsComplete(drops: seq<int>, draws: seq<ColumnDraw>)
    requires |draws| == |drops|
    requires forall i :: 0 <= i < |draws| ==> ValidDraw(draws[i])
    ensures forall i :: 0 <= i < |drops| && Selected(draws[i]) ==> ColumnDrawn(Drawn(drops, draws), i)
    decreases |drops|
  {
    if |drops| > 0 {
      var k := |drops| - 1;
      DrawnGlyphsComplete(drops[..k], draws[..k]);
      var prev := Drawn(drops[..k], draws[..k]);
      var gs := Drawn(drops, draws);
      assert gs[..|prev|] == prev;
      forall i | 0 <= i < |drops| && Selected(draws[i])
        ensures ColumnDrawn(gs, i)
      {
        if i < k {
          assert draws[..k][i] == draws[i] && Selected(draws[..k][i]);
          assert ColumnDrawn(prev, i);
          var j :| 0 <= j < |prev| && prev[j].column == i;
          assert gs[j] == prev[j];
          assert 0 <= j < |gs| && gs[j].column == i;
        } else {
          assert gs[|gs| - 1].column == i;
        }
      }
    }
  }

  /**
   * Exactly the selected columns draw, once each and left to right, at
   * their current row, with a character from the glyph list.
   */
  lemma DrawnGlyphs(drops: seq<int>, draws: seq<ColumnDraw>)
    requires |draws| == |drops|
    requires forall i :: 0 <= i < |draws| ==> ValidDraw(draws[i])
    ensures var gs := Drawn(drops, draws);
      (forall j :: 0 <= j < |gs| ==>
        gs[j].column < |drops| && Selected(draws[gs[j].column])
        && gs[j].y == drops[gs[j].column] * FontSize && gs[j].ch in MatrixChars)
      && (forall j, l :: 0 <= j < l < |gs| ==> gs[j].column < gs[l].column)
      && (forall i :: 0 <= i < |drops| && Selected(draws[i]) ==> exists j :: 0 <= j < |gs| && gs[j].column == i)
  {
    DrawnGlyphsSound(drops, draws);
    DrawnGlyphsOrdered(drops, draws);
    DrawnGlyphsComplete(drops, draws);
  }

  /** The canvas effect's state: the fixed-length `drops` array and the frame counter. */
  class Rain {
    const drops: array<int>
    var width: nat
    var height: nat
    var frameCount: nat

    ghost predicate Valid()
      reads this, drops
    {
      AllPositive(drops[..])
    }

    /** The effect's set-up: size the canvas, then one row-1 drop per column. */
    constructor (innerWidth: nat, innerHeight: nat)
      ensures width == innerWidth && height == innerHeight && frameCount == 0
      ensures drops.Length == Columns(innerWidth)
      ensures forall i :: 0 <= i < drops.Length ==> drops[i] == 1
      ensures Valid()
    {
      width := innerWidth;
      height := innerHeight;
      frameCount := 0;
      drops := new int[innerWidth / FontSize](_ => 1);
    }

    /** The resize listener changes the canvas size but not the number of columns. */
    method Resize(innerWidth: nat, innerHeight: nat)
      modifies this
      ensures width == innerWidth && height == innerHeight && frameCount == old(frameCount)
      ensures drops[..] == old(drops[..])
    {
      width := innerWidth;
      height := innerHeight;
    }

    /**
     * One `drawMatrix` call. Only every third frame draws and moves drops;
     * the others just count.
     */
    method Frame(draws: seq<ColumnDraw>) returns (drawn: seq<Glyph>)
      requires Valid()
      requires |draws| == drops.Length
      requires forall i :: 0 <= i < |draws| ==> ValidDraw(draws[i])
      modifies this, drops
      ensures frameCount == old(frameCount) + 1 && width == old(width) && height == old(height)
      ensures frameCount % 3 != 0 ==> drops[..] == old(drops[..]) && drawn == []
      ensures frameCount % 3 == 0 ==>
        drops[..] == StepDrops(old(drops[..]), draws, height) && drawn == Drawn(old(drops[..]), draws)
      ensures Valid()
    {
      frameCount := frameCount + 1;
      if frameCount % 3 != 0 {
        return [];
      }
      ghost var before := drops[..];
      drawn := [];
      var i := 0;
      while i < drops.Length
        invariant 0 <= i <= drops.Length
        invariant frameCount == old(frameCount) + 1 && width == old(width) && height == old(height)
        invariant forall j :: 0 <= j < i ==> drops[j] == NextDrop(before[j], draws[j], height)
        invariant forall j :: i <= j < drops.Length ==> drops[j] == before[j]
        invariant drawn == Drawn(before[..i], draws[..i])
      {
        if Selected(draws[i]) {
          var text := MatrixChars[GlyphIndex(draws[i].glyph)];
          var y := drops[i] * FontSize;
          drawn := drawn + [Glyph(i, text, y, draws[i].bright > 0.9)];
          if y > height && draws[i].reset > 0.95 {
            drops[i] := 0;
          }
          drops[i] := drops[i] + 1;
        }
        DrawnStep(before, draws, i);
        i := i + 1;
      }
      assert drops[..] == StepDrops(before, draws, height);
      assert before == before[..drops.Length];
      assert draws == draws[..drops.Length];
      StepDropsKeepsRows(before, draws, height);
    }
  }
}
