/**
 * The card grid of the store front-end (AppGridView).
 *
 * The grid keeps an ordered list of cards and a positive column count. Every
 * re-layout places the cards row-major: left to right, wrapping to the next row
 * after `columnsCount` cards. On a resize the column count is recomputed from the
 * viewport width so that as many fixed-width cards as fit sit side by side.
 *
 * Cards are opaque ids; the grid layout is modelled as the sequence of cells it holds.
 */
module Grid {

  /** The fixed width of a card, in pixels. */
  const CardWidth := 280
  const DefaultColumns := 3
  const DefaultSpacing := 20

  type CardId = nat

  /** A card pointer handed to `addAppCard`, which may be null. */
  datatype CardRef = Null | Ref(id: CardId)

  /** One entry of the grid layout: a card at a row and a column. */
  datatype Cell = Cell(card: CardId, row: int, col: int)

  function Max(a: int, b: int): int { if a < b then b else a }

  /** C++ `int` division: the quotient is truncated toward zero. */
  function TruncDiv(a: int, b: int): (q: int)
    requires b > 0
    ensures a >= 0 ==> q * b <= a < (q + 1) * b
    ensures a < 0 ==> (q - 1) * b < a <= q * b
  {
    if a >= 0 then a / b else -((-a) / b)
  }

  /** Row-major placement: the k-th card goes to row k / cols, column k % cols. */
  function Placement(cards: seq<CardId>, cols: int): (p: seq<Cell>)
    requires cols >= 1
    ensures |p| == |cards|
    ensures forall k :: 0 <= k < |p| ==>
              p[k].card == cards[k] && 0 <= p[k].col < cols && p[k].row * cols + p[k].col == k
  {
    seq(|cards|, k requires 0 <= k < |cards| => Cell(cards[k], k / cols, k % cols))
  }

  /** The loop of `updateLayout`: walks the cards with a row and a column counter,
      wrapping the column back to 0 and moving to the next row after `cols` cards. */
  method PlaceCards(cards: seq<CardId>, cols: int) returns (cells: seq<Cell>)
    requires cols >= 1
    ensures cells == Placement(cards, cols)
  {
    cells := [];
    var row, col := 0, 0;
    for k := 0 to |cards|
      invariant |cells| == k
      invariant 0 <= row && 0 <= col < cols && row * cols + col == k
      invariant forall j :: 0 <= j < k ==> cells[j] == Cell(cards[j], j / cols, j % cols)
    {
      DivModOf(k, cols, row, col);
      cells := cells + [Cell(cards[k], row, col)];
      col := col + 1;
      if col >= cols {
        col := 0;
        row := row + 1;
      }
    }
  }

  /** A row and a column with `row * cols + col == k` and `col < cols` are k's quotient and remainder. */
  lemma DivModOf(k: int, cols: int, row: int, col: int)
    requires cols >= 1 && 0 <= row && 0 <= col < cols && row * cols + col == k
    ensures k / cols == row && k % cols == col
  {
    var q, m := k / cols, k % cols;
    assert q * cols + m == k && 0 <= m < cols;
    if q < row {
      MulLe(q + 1, row, cols);
    } else if q > row {
      MulLe(row + 1, q, cols);
    }
  }

  lemma MulLe(a: int, b: int, c: int)
    requires a <= b && c >= 0
    ensures a * c <= b * c
  {
  }

  /** Cards are laid out in reading order: a later card sits in a later row, or in the
      same row further right. */
  lemma {:induction false} PlacementRowMajor(cards: seq<CardId>, cols: int, j: int, k: int)
    requires cols >= 1 && 0 <= j < k < |cards|
    ensures var p := Placement(cards, cols);
            p[j].row < p[k].row || (p[j].row == p[k].row && p[j].col < p[k].col)
  {
    var p := Placement(cards, cols);
    if p[j].row > p[k].row {
      MulLe(p[k].row + 1, p[j].row, cols);
    } else if p[j].row == p[k].row {
      assert p[j].col < p[k].col;
    }
  }

  /** No two cards share a cell, and every cell lies in a column of the grid. */
  lemma PlacementDistinct(cards: seq<CardId>, cols: int)
    requires cols >= 1
    ensures var p := Placement(cards, cols);
            (forall k :: 0 <= k < |p| ==> p[k].card == cards[k] && p[k].row >= 0 && 0 <= p[k].col < cols) &&
            (forall j, k :: 0 <= j < k < |p| ==> (p[j].row, p[j].col) != (p[k].row, p[k].col))
  {
    var p := Placement(cards, cols);
    forall j, k | 0 <= j < k < |p| ensures (p[j].row, p[j].col) != (p[k].row, p[k].col) {
      PlacementRowMajor(cards, cols, j, k);
    }
  }

  /** Appending a card keeps every earlier card in its cell. */
  lemma PlacementAppend(cards: seq<CardId>, c: CardId, cols: int)
    requires cols >= 1
    ensures Placement(cards + [c], cols) == Placement(cards, cols) + [Cell(c, |cards| / cols, |cards| % cols)]
  {
  }

  /** The width left for cards in `calculateGrid`: the viewport less the outer margins
      and the vertical scroll bar. */
  function AvailableWidth(width: int, scrollBarWidth: int, spacing: int): int
  {
    width - spacing * 2 - scrollBarWidth
  }

  /** `calculateGrid`'s column count: how many cards, with spacing between them, fit
      in the available width, and at least one. */
  function FitColumns(width: int, scrollBarWidth: int, spacing: int): (c: int)
    requires spacing >= 0
    ensures c >= 1
  {
    Max(1, TruncDiv(AvailableWidth(width, scrollBarWidth, spacing) + spacing, CardWidth + spacing))
  }

  /** After the `max(1, ...)`, truncating and Euclidean division give the same count. */
  lemma FitColumnsFloor(width: int, scrollBarWidth: int, spacing: int)
    requires spacing >= 0
    ensures FitColumns(width, scrollBarWidth, spacing)
            == Max(1, (AvailableWidth(width, scrollBarWidth, spacing) + spacing) / (CardWidth + spacing))
  {
    var a, b := AvailableWidth(width, scrollBarWidth, spacing) + spacing, CardWidth + spacing;
    if a < 0 {
      var q := a / b;
      assert q * b <= a;
      if q >= 0 {
        MulLe(0, q, b);
      }
    }
  }

  lemma TruncDivMonotone(a1: int, a2: int, b: int)
    requires a1 <= a2 && b > 0
    ensures TruncDiv(a1, b) <= TruncDiv(a2, b)
  {
    var q1, q2 := TruncDiv(a1, b), TruncDiv(a2, b);
    if q1 > q2 {
      MulLe(q2 + 1, q1, b);
      MulLe(q2, q1 - 1, b);
    }
  }

  /** A wider viewport never yields fewer columns. */
  lemma FitColumnsMonotone(w1: int, w2: int, scrollBarWidth: int, spacing: int)
    requires w1 <= w2 && spacing >= 0
    ensures FitColumns(w1, scrollBarWidth, spacing) <= FitColumns(w2, scrollBarWidth, spacing)
  {
    TruncDivMonotone(AvailableWidth(w1, scrollBarWidth, spacing) + spacing,
                     AvailableWidth(w2, scrollBarWidth, spacing) + spacing, CardWidth + spacing);
  }

  /** More than one column is chosen only when that many cards and the spacing between
      them fit in the available width; one more column never fits. */
  lemma FitColumnsFits(width: int, scrollBarWidth: int, spacing: int)
    requires spacing >= 0
    ensures var c, avail := FitColumns(width, scrollBarWidth, spacing), AvailableWidth(width, scrollBarWidth, spacing);
            (c > 1 ==> c * CardWidth + (c - 1) * spacing <= avail) &&
            avail < (c + 1) * CardWidth + c * spacing
  {
    var c, avail := FitColumns(width, scrollBarWidth, spacing), AvailableWidth(width, scrollBarWidth, spacing);
    var a, b := avail + spacing, CardWidth + spacing;
    var q := TruncDiv(a, b);
    Distribute(c, spacing);
    Distribute(c + 1, spacing);
    if a < 0 {
      assert q <= 0 && c == 1;
    } else if q >= 1 {
      assert c == q && c * b <= a < (c + 1) * b;
    } else {
      assert c == 1 && a < b;
    }
  }

  lemma Distribute(c: int, spacing: int)
    ensures c * (CardWidth + spacing) == c * CardWidth + c * spacing
  {
  }

  /** The card grid (AppGridView). */
  class AppGridView {
    var cards: seq<CardId>
    var columnsCount: int
    const spacing: int
    /** The cells the grid layout holds. */
    var layout: seq<Cell>

    /** At least one column, and the layout shows every card in its row-major cell. */
    ghost predicate Valid()
      reads this
    {
      columnsCount >= 1 && spacing == DefaultSpacing && layout == Placement(cards, columnsCount)
    }

    /** A fresh grid: three columns, spacing 20, no cards. */
    constructor ()
      ensures Valid()
      ensures cards == [] && layout == [] && columnsCount == DefaultColumns && spacing == DefaultSpacing
    {
      cards, layout := [], [];
      columnsCount, spacing := DefaultColumns, DefaultSpacing;
    }

    /** `updateLayout`: empty the grid layout and place every card again. */
    method UpdateLayout()
      requires columnsCount >= 1
      modifies this`layout
      ensures layout == Placement(cards, columnsCount)
    {
      layout := [];
      layout := PlaceCards(cards, columnsCount);
    }

    /** `addAppCard`: a null card is ignored; any other card goes to the end of the list. */
    method AddAppCard(card: CardRef)
      requires Valid()
      modifies this
      ensures Valid() && columnsCount == old(columnsCount)
      ensures card.Null? ==> unchanged(this)
      ensures card.Ref? ==> cards == old(cards) + [card.id] &&
                            layout == old(layout) + [Cell(card.id, |old(cards)| / columnsCount, |old(cards)| % columnsCount)]
    {
      if card.Null? {
        return;
      }
      cards := cards + [card.id];
      UpdateLayout();
      PlacementAppend(old(cards), card.id, columnsCount);
    }

    /** `clearCards`: take every card out of the layout and empty the list. */
    method ClearCards()
      requires Valid()
      modifies this
      ensures Valid() && cards == [] && layout == [] && columnsCount == old(columnsCount)
    {
      var i := 0;
      while i < |cards|
        invariant cards == old(cards) && columnsCount == old(columnsCount)
        invariant 0 <= i <= |cards|
        invariant layout == Placement(cards, columnsCount)[i..]
      {
        layout := layout[1..];
        i := i + 1;
      }
      cards := [];
    }

    /** `setColumnsCount`: only a positive, different count is stored, and the cards are placed again. */
    method SetColumnsCount(count: int)
      requires Valid()
      modifies this
      ensures Valid() && cards == old(cards)
      ensures columnsCount == if count > 0 then count else old(columnsCount)
      ensures !(count > 0 && count != old(columnsCount)) ==> unchanged(this)
    {
      if count > 0 && count != columnsCount {
        columnsCount := count;
        UpdateLayout();
      }
    }

    /** `cardsCount`. */
    method CardsCount() returns (n: int)
      ensures n == |cards|
    {
      n := |cards|;
    }

    /** `resizeEvent` / `calculateGrid`: recompute the column count for the new viewport
        width; the cards are placed again only when the count changes. */
    method Resize(width: int, scrollBarWidth: int) returns (relaid: bool)
      requires Valid()
      modifies this
      ensures Valid() && cards == old(cards)
      ensures columnsCount == FitColumns(width, scrollBarWidth, spacing)
      ensures relaid == (columnsCount != old(columnsCount))
      ensures !relaid ==> unchanged(this)
    {
      var possibleColumns := FitColumns(width, scrollBarWidth, spacing);
      relaid := possibleColumns != columnsCount;
      if relaid {
        SetColumnsCount(possibleColumns);
      }
    }
  }
}
