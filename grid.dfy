/** The card grid of index.js: how many cards fit across and down a page,
    and where the card in a given slot of a page goes. All lengths are
    PDF points; the card constants are integers and the page size is a
    parameter (PDFKit's LETTER page is 612 by 792). */
module Grid {
  import opened Batches

  /** The `CARD` table: card size, gaps between cards, page margin. */
  datatype CardGeometry = CardGeometry(width: int, height: int, gapX: int, gapY: int, margin: int)

  const Card := CardGeometry(280, 95, 20, 15, 15)

  predicate WellFormed(g: CardGeometry) {
    g.width > 0 && g.height > 0 && g.gapX >= 0 && g.gapY >= 0 && g.margin >= 0
  }

  datatype Point = Point(x: int, y: int)

  /** A rectangle by its top-left corner, width and height. */
  datatype Rect = Rect(x: int, y: int, w: int, h: int)

  predicate Disjoint(a: Rect, b: Rect) {
    a.x + a.w <= b.x || b.x + b.w <= a.x || a.y + a.h <= b.y || b.y + b.h <= a.y
  }

  /** `Math.floor((span + gap) / (size + gap))`: the number of items of the
      given size, separated by the gap, that fit in the span. (For a
      positive divisor Dafny's division rounds down, as Math.floor does.) */
  function FitCount(span: int, size: int, gap: int): (n: int)
    requires size > 0 && gap >= 0
    ensures n * size + (n - 1) * gap <= span
    ensures (n + 1) * size + n * gap > span
  {
    var q := (span + gap) / (size + gap);
    assert q * (size + gap) <= span + gap < (q + 1) * (size + gap);
    q
  }

  /** `columns` */
  function Columns(pageWidth: int, g: CardGeometry): (n: int)
    requires WellFormed(g)
    ensures n * g.width + (n - 1) * g.gapX <= pageWidth - 2 * g.margin
    ensures (n + 1) * g.width + n * g.gapX > pageWidth - 2 * g.margin
  {
    FitCount(pageWidth - 2 * g.margin, g.width, g.gapX)
  }

  /** `rowsCount` */
  function Rows(pageHeight: int, g: CardGeometry): (n: int)
    requires WellFormed(g)
    ensures n * g.height + (n - 1) * g.gapY <= pageHeight - 2 * g.margin
    ensures (n + 1) * g.height + n * g.gapY > pageHeight - 2 * g.margin
  {
    FitCount(pageHeight - 2 * g.margin, g.height, g.gapY)
  }

  /** `itemsPerPage` */
  function ItemsPerPage(pageWidth: int, pageHeight: int, g: CardGeometry): int
    requires WellFormed(g)
  {
    Columns(pageWidth, g) * Rows(pageHeight, g)
  }

  /** On a LETTER page the cards sit two across and seven down. */
  lemma LetterGrid()
    ensures WellFormed(Card)
    ensures Columns(612, Card) == 2 && Rows(792, Card) == 7
    ensures ItemsPerPage(612, 792, Card) == 14
  {
  }

  /** The top-left corner of the card in slot idx of a page: column
      `idx % columns`, row `Math.floor(idx / columns)`. */
  function SlotOrigin(idx: nat, columns: int, g: CardGeometry): (o: Point)
    requires columns >= 1
  {
    Point(g.margin + (idx % columns) * (g.width + g.gapX),
          g.margin + (idx / columns) * (g.height + g.gapY))
  }

  /** The border rectangle of the card in slot idx. */
  function SlotRect(idx: nat, columns: int, g: CardGeometry): Rect
    requires columns >= 1
  {
    var o := SlotOrigin(idx, columns, g);
    Rect(o.x, o.y, g.width, g.height)
  }

  /** Placing `count` items (count >= 1) from the start of a span of items
      that fit: the last of them ends inside the span. */
  lemma LastItemFits(span: int, size: int, gap: int, k: nat)
    requires size > 0 && gap >= 0
    requires k < FitCount(span, size, gap)
    ensures k * (size + gap) + size <= span
  {
    var n := FitCount(span, size, gap);
    MulLe(k, n - 1, size + gap);
    assert (n - 1) * (size + gap) + size == n * size + (n - 1) * gap;
  }

  /** Every slot of a page lies inside the page margins. */
  lemma SlotInsideMargins(pageWidth: int, pageHeight: int, g: CardGeometry, idx: nat)
    requires WellFormed(g)
    requires Columns(pageWidth, g) >= 1 && Rows(pageHeight, g) >= 1
    requires idx < ItemsPerPage(pageWidth, pageHeight, g)
    ensures SlotOrigin(idx, Columns(pageWidth, g), g).x >= g.margin
    ensures SlotOrigin(idx, Columns(pageWidth, g), g).y >= g.margin
    ensures SlotOrigin(idx, Columns(pageWidth, g), g).x + g.width <= pageWidth - g.margin
    ensures SlotOrigin(idx, Columns(pageWidth, g), g).y + g.height <= pageHeight - g.margin
  {
    var c := Columns(pageWidth, g);
    var r := Rows(pageHeight, g);
    var col, row := idx % c, idx / c;
    assert idx == row * c + col;
    if row >= r {
      MulLe(r, row, c);
      assert false;
    }
    LastItemFits(pageWidth - 2 * g.margin, g.width, g.gapX, col);
    LastItemFits(pageHeight - 2 * g.margin, g.height, g.gapY, row);
    MulLe(0, col, g.width + g.gapX);
    MulLe(0, row, g.height + g.gapY);
  }

  /** Slots further along a line start at least one card and one gap later. */
  lemma Spaced(a: int, b: int, size: int, gap: int)
    requires a < b && size > 0 && gap >= 0
    ensures a * (size + gap) + size <= b * (size + gap)
  {
    MulLe(a + 1, b, size + gap);
  }

  /** Two different slots, in the same page grid, never overlap, so no two
      cards of a page share an origin. */
  lemma SlotsDisjoint(columns: int, g: CardGeometry, i: nat, j: nat)
    requires WellFormed(g) && columns >= 1
    requires i != j
    ensures Disjoint(SlotRect(i, columns, g), SlotRect(j, columns, g))
    ensures SlotOrigin(i, columns, g) != SlotOrigin(j, columns, g)
  {
    var ci, ri := i % columns, i / columns;
    var cj, rj := j % columns, j / columns;
    assert i == ri * columns + ci;
    assert j == rj * columns + cj;
    if ri < rj {
      Spaced(ri, rj, g.height, g.gapY);
    } else if rj < ri {
      Spaced(rj, ri, g.height, g.gapY);
    } else if ci < cj {
      Spaced(ci, cj, g.width, g.gapX);
    } else {
      assert cj < ci;
      Spaced(cj, ci, g.width, g.gapX);
    }
  }
}
