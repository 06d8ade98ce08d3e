/** The card pages of index.js: rows are normalised into records, the
    records are cut into pages of `itemsPerPage`, and each card of a page
    gets its border, its logo, and its name and role, each shrunk to the
    text box and the pair centred vertically in the card. Instead of
    drawing on a PDFKit document, the model returns what would be drawn
    (a plan per card, a list of cards per page). */
module PdfCards {
  import opened Cells
  import opened Batches
  import opened Grid
  import opened FontFit

  /** A normalised spreadsheet row. */
  datatype Record = Record(name: string, position: string)

  /** `{ name: String(r[nombreKey] || '').toUpperCase(), position: ... }` */
  function NormalizeRow(row: Row, nameKey: string, roleKey: string): Record {
    Record(Normalized(Lookup(row, nameKey)), Normalized(Lookup(row, roleKey)))
  }

  /** `rows.map(...)`: one record per row, in the same order. */
  function Normalize(rows: seq<Row>, nameKey: string, roleKey: string): (data: seq<Record>)
    ensures |data| == |rows|
    ensures forall i :: 0 <= i < |rows| ==> data[i] == NormalizeRow(rows[i], nameKey, roleKey)
  {
    if rows == [] then [] else [NormalizeRow(rows[0], nameKey, roleKey)] + Normalize(rows[1..], nameKey, roleKey)
  }

  /** A missing or falsy cell gives an empty name or role. */
  lemma NormalizeBlank(rows: seq<Row>, nameKey: string, roleKey: string, i: nat)
    requires i < |rows|
    ensures Normalize(rows, nameKey, roleKey)[i].name == "" <==> !Truthy(Lookup(rows[i], nameKey))
    ensures Normalize(rows, nameKey, roleKey)[i].position == "" <==> !Truthy(Lookup(rows[i], roleKey))
  {
    NormalizedCell(Lookup(rows[i], nameKey));
    NormalizedCell(Lookup(rows[i], roleKey));
  }

  /** The logo is drawn at (x + 8, y + 8), 80 points wide. */
  const LogoInset: int := 8
  const LogoWidth: int := 80
  /** `textX = x + 8 + 80 + 10` */
  const TextInset: int := LogoInset + LogoWidth + 10
  /** `textW = CARD.width - (80 + 18)` */
  const TextWidth: int := Card.width - (LogoWidth + 18)
  /** Vertical space between the name and the role. */
  const Spacing: real := 4.0

  /** `doc.heightOfString(text, { width })` with the document set to a
      face and size. */
  type HeightOf = (Face, int, string, int) -> real

  datatype LogoPlacement = LogoPlacement(x: int, y: int, width: int)

  /** One `doc.text(text, x, y, { width, align: 'center' })` call. */
  datatype TextRun = TextRun(text: string, face: Face, size: int, x: int, y: real, width: int)

  /** Everything drawn for one card. */
  datatype CardPlan = CardPlan(border: Rect, logo: LogoPlacement, name: TextRun, role: TextRun)

  /** The height of the name and role text at their chosen sizes. */
  function NameHeight(item: Record, widthOf: WidthOf, heightOf: HeightOf): real {
    heightOf(Bold, Fit(widthOf, Bold, item.name, NameStartSize, TextWidth), item.name, TextWidth)
  }

  function RoleHeight(item: Record, widthOf: WidthOf, heightOf: HeightOf): real {
    heightOf(Regular, Fit(widthOf, Regular, item.position, RoleStartSize, TextWidth), item.position, TextWidth)
  }

  /** The card for `item` in slot idx of a page with the given number of
      columns. */
  function PlanCard(item: Record, idx: nat, columns: int, widthOf: WidthOf, heightOf: HeightOf): (c: CardPlan)
    requires columns >= 1
    ensures c.border == SlotRect(idx, columns, Card)
    // the text box starts 98 points in and ends exactly at the card's right edge
    ensures c.name.x == c.border.x + 98 && c.name.x + c.name.width == c.border.x + c.border.w
    ensures c.role.x == c.name.x && c.role.width == c.name.width
    // the logo is drawn 8 points in from the corner, 80 wide, and ends 10
    // points before the text box
    ensures c.logo == LogoPlacement(c.border.x + 8, c.border.y + 8, 80)
    ensures c.logo.x + c.logo.width + 10 == c.name.x
    // name and role are drawn in their faces at the sizes the shrink search chose
    ensures c.name == TextRun(item.name, Bold, Fit(widthOf, Bold, item.name, NameStartSize, TextWidth),
                              c.name.x, c.name.y, TextWidth)
    ensures c.role == TextRun(item.position, Regular, Fit(widthOf, Regular, item.position, RoleStartSize, TextWidth),
                              c.role.x, c.role.y, TextWidth)
    ensures MinSize <= c.name.size <= NameStartSize && MinSize <= c.role.size <= RoleStartSize
    // the role sits below the name, and the block is centred: the space
    // above the name equals the space below the role
    ensures c.role.y == c.name.y + NameHeight(item, widthOf, heightOf) + Spacing
    ensures c.name.y - c.border.y as real
         == (c.border.y + c.border.h) as real - (c.role.y + RoleHeight(item, widthOf, heightOf))
  {
    var border := SlotRect(idx, columns, Card);
    var nameSize := Fit(widthOf, Bold, item.name, NameStartSize, TextWidth);
    var posSize := Fit(widthOf, Regular, item.position, RoleStartSize, TextWidth);
    var total := NameHeight(item, widthOf, heightOf) + Spacing + RoleHeight(item, widthOf, heightOf);
    var textY := border.y as real + (Card.height as real - total) / 2.0;
    CardPlan(border,
             LogoPlacement(border.x + LogoInset, border.y + LogoInset, LogoWidth),
             TextRun(item.name, Bold, nameSize, border.x + TextInset, textY, TextWidth),
             TextRun(item.position, Regular, posSize, border.x + TextInset,
                     textY + NameHeight(item, widthOf, heightOf) + Spacing, TextWidth))
  }

  /** The body of the `forEach` callback: the two shrink loops, then the
      placement arithmetic. */
  method ComposeCard(item: Record, idx: nat, columns: int, widthOf: WidthOf, heightOf: HeightOf)
    returns (c: CardPlan)
    requires columns >= 1
    ensures c == PlanCard(item, idx, columns, widthOf, heightOf)
  {
    var o := SlotOrigin(idx, columns, Card);
    var textX := o.x + LogoInset + LogoWidth + 10;
    var textW := Card.width - (LogoWidth + 18);
    var nameSize := ShrinkToFit(widthOf, Bold, item.name, NameStartSize, textW);
    var nameHeight := heightOf(Bold, nameSize, item.name, textW);
    var posSize := ShrinkToFit(widthOf, Regular, item.position, RoleStartSize, textW);
    var posHeight := heightOf(Regular, posSize, item.position, textW);
    var totalTextHeight := nameHeight + Spacing + posHeight;
    var textY := o.y as real + (Card.height as real - totalTextHeight) / 2.0;
    c := CardPlan(Rect(o.x, o.y, Card.width, Card.height),
                  LogoPlacement(o.x + LogoInset, o.y + LogoInset, LogoWidth),
                  TextRun(item.name, Bold, nameSize, textX, textY, textW),
                  TextRun(item.position, Regular, posSize, textX, textY + nameHeight + Spacing, textW));
  }

  /** The cards of one page, the item at index idx in slot idx. */
  function PlanPage(items: seq<Record>, columns: int, widthOf: WidthOf, heightOf: HeightOf): (cards: seq<CardPlan>)
    requires columns >= 1
  {
    seq(|items|, idx requires 0 <= idx < |items| => PlanCard(items[idx], idx, columns, widthOf, heightOf))
  }

  /** `pageItems.forEach((item, idx) => ...)` */
  method ComposePage(items: seq<Record>, columns: int, widthOf: WidthOf, heightOf: HeightOf)
    returns (cards: seq<CardPlan>)
    requires columns >= 1
    ensures cards == PlanPage(items, columns, widthOf, heightOf)
  {
    cards := [];
    for idx := 0 to |items|
      invariant cards == PlanPage(items[..idx], columns, widthOf, heightOf)
    {
      var c := ComposeCard(items[idx], idx, columns, widthOf, heightOf);
      assert items[..idx + 1][..idx] == items[..idx];
      cards := cards + [c];
    }
    assert items[..|items|] == items;
  }

  /** The page size admits at least one column and one row, or there is
      nothing to lay out (otherwise the page loop never ends). */
  predicate Placeable(data: seq<Record>, pageWidth: int, pageHeight: int) {
    data == [] || (Columns(pageWidth, Card) >= 1 && Rows(pageHeight, Card) >= 1)
  }

  lemma PositiveProduct(a: int, b: int)
    requires a >= 1 && b >= 1
    ensures a * b >= 1 && a * b >= a
  {
    MulLe(1, b, a);
  }

  /** The plan of the whole document: the pages of `itemsPerPage` records
      in order, each laid out in the grid. */
  function PlanDocument(data: seq<Record>, pageWidth: int, pageHeight: int, widthOf: WidthOf, heightOf: HeightOf)
    : (pages: seq<seq<CardPlan>>)
    requires Placeable(data, pageWidth, pageHeight)
  {
    if data == [] then []
    else
      var columns := Columns(pageWidth, Card);
      PositiveProduct(columns, Rows(pageHeight, Card));
      var batches := Chunks(data, ItemsPerPage(pageWidth, pageHeight, Card));
      seq(|batches|, p requires 0 <= p < |batches| => PlanPage(batches[p], columns, widthOf, heightOf))
  }

  /** `generatePdf` without the drawing: the page loop
      `for (let p = 0; p * itemsPerPage < data.length; p++)`, each page the
      slice `data.slice(p * itemsPerPage, p * itemsPerPage + itemsPerPage)`. */
  method GeneratePdf(data: seq<Record>, pageWidth: int, pageHeight: int, widthOf: WidthOf, heightOf: HeightOf)
    returns (pages: seq<seq<CardPlan>>)
    requires Placeable(data, pageWidth, pageHeight)
    ensures pages == PlanDocument(data, pageWidth, pageHeight, widthOf, heightOf)
  {
    var columns := Columns(pageWidth, Card);
    var rowsCount := Rows(pageHeight, Card);
    var itemsPerPage := columns * rowsCount;
    pages := [];
    if data == [] {
      return;
    }
    PositiveProduct(columns, rowsCount);
    var p: nat := 0;
    while p * itemsPerPage < |data|
      invariant |pages| == p
      invariant p > 0 ==> (p - 1) * itemsPerPage < |data|
      invariant forall q :: 0 <= q < p ==>
        pages[q] == PlanPage(Slice(data, q * itemsPerPage, q * itemsPerPage + itemsPerPage), columns, widthOf, heightOf)
      decreases |data| - p * itemsPerPage
    {
      MulLe(0, p, itemsPerPage);
      var pageItems := Slice(data, p * itemsPerPage, p * itemsPerPage + itemsPerPage);
      var cards := ComposePage(pageItems, columns, widthOf, heightOf);
      pages := pages + [cards];
      p := p + 1;
    }
    BatchCount(|data|, itemsPerPage, p);
    ChunkSizes(data, itemsPerPage);
    forall q | 0 <= q < p
      ensures pages[q] == PlanPage(Chunks(data, itemsPerPage)[q], columns, widthOf, heightOf)
    {
      ChunkAt(data, itemsPerPage, q);
    }
  }

  /** The document has ceil(n / itemsPerPage) pages, none for no records;
      every page but the last is full and the last is not empty. */
  lemma DocumentPages(data: seq<Record>, pageWidth: int, pageHeight: int, widthOf: WidthOf, heightOf: HeightOf)
    requires Placeable(data, pageWidth, pageHeight)
    ensures data == [] ==> PlanDocument(data, pageWidth, pageHeight, widthOf, heightOf) == []
    ensures data != [] ==>
      var k := ItemsPerPage(pageWidth, pageHeight, Card);
      var pages := PlanDocument(data, pageWidth, pageHeight, widthOf, heightOf);
      k >= 1
      && |pages| == CeilDiv(|data|, k)
      && (forall p :: 0 <= p < |pages| - 1 ==> |pages[p]| == k)
      && 0 < |pages[|pages| - 1]| <= k
  {
    if data != [] {
      var k := ItemsPerPage(pageWidth, pageHeight, Card);
      PositiveProduct(Columns(pageWidth, Card), Rows(pageHeight, Card));
      ChunkSizes(data, k);
    }
  }

  /** Card i of page p is record p * itemsPerPage + i, drawn in slot i. */
  lemma DocumentCardAt(data: seq<Record>, pageWidth: int, pageHeight: int, widthOf: WidthOf, heightOf: HeightOf,
                       p: nat, i: nat)
    requires Placeable(data, pageWidth, pageHeight)
    requires p < |PlanDocument(data, pageWidth, pageHeight, widthOf, heightOf)|
    requires i < |PlanDocument(data, pageWidth, pageHeight, widthOf, heightOf)[p]|
    ensures Columns(pageWidth, Card) >= 1
    ensures p * ItemsPerPage(pageWidth, pageHeight, Card) + i < |data|
    ensures PlanDocument(data, pageWidth, pageHeight, widthOf, heightOf)[p][i]
      == PlanCard(data[p * ItemsPerPage(pageWidth, pageHeight, Card) + i], i, Columns(pageWidth, Card), widthOf, heightOf)
  {
    var k := ItemsPerPage(pageWidth, pageHeight, Card);
    var columns := Columns(pageWidth, Card);
    PositiveProduct(columns, Rows(pageHeight, Card));
    var items := Chunks(data, k)[p];
    assert PlanDocument(data, pageWidth, pageHeight, widthOf, heightOf)[p] == PlanPage(items, columns, widthOf, heightOf);
    ChunkAt(data, k, p);
    var lo := p * k;
    MulLe(0, p, k);
    assert items == data[lo..Min(lo + k, |data|)];
    assert items[i] == data[lo + i];
  }

  /** Every card of the document lies inside the page margins, and no two
      cards of a page overlap. */
  lemma DocumentCardsPlaced(data: seq<Record>, pageWidth: int, pageHeight: int, widthOf: WidthOf, heightOf: HeightOf)
    requires Placeable(data, pageWidth, pageHeight)
    ensures var pages := PlanDocument(data, pageWidth, pageHeight, widthOf, heightOf);
      forall p, i :: 0 <= p < |pages| && 0 <= i < |pages[p]| ==>
        var b := pages[p][i].border;
        Card.margin <= b.x && b.x + b.w <= pageWidth - Card.margin
        && Card.margin <= b.y && b.y + b.h <= pageHeight - Card.margin
    ensures var pages := PlanDocument(data, pageWidth, pageHeight, widthOf, heightOf);
      forall p, i, j :: 0 <= p < |pages| && 0 <= i < j < |pages[p]| ==>
        Disjoint(pages[p][i].border, pages[p][j].border)
  {
    if data != [] {
      var k := ItemsPerPage(pageWidth, pageHeight, Card);
      var columns := Columns(pageWidth, Card);
      PositiveProduct(columns, Rows(pageHeight, Card));
      var pages: seq<seq<CardPlan>> := PlanDocument(data, pageWidth, pageHeight, widthOf, heightOf);
      ChunkSizes(data, k);
      forall p: int, i: int | 0 <= p < |pages| && 0 <= i < |pages[p]|
        ensures var b := pages[p][i].border;
          Card.margin <= b.x && b.x + b.w <= pageWidth - Card.margin
          && Card.margin <= b.y && b.y + b.h <= pageHeight - Card.margin
      {
        assert i < k;
        SlotInsideMargins(pageWidth, pageHeight, Card, i);
      }
      forall p: int, i: int, j: int | 0 <= p < |pages| && 0 <= i < j < |pages[p]|
        ensures Disjoint(pages[p][i].border, pages[p][j].border)
      {
        SlotsDisjoint(columns, Card, i, j);
      }
    }
  }

  /** On a LETTER page, twenty records fill one page of fourteen cards and
      leave six for a second; fourteen records make exactly one full page. */
  lemma LetterDocument(data: seq<Record>, widthOf: WidthOf, heightOf: HeightOf)
    requires |data| == 20 || |data| == 14
    ensures Placeable(data, 612, 792)
    ensures var pages := PlanDocument(data, 612, 792, widthOf, heightOf);
      if |data| == 20 then |pages| == 2 && |pages[0]| == 14 && |pages[1]| == 6
      else |pages| == 1 && |pages[0]| == 14
  {
    LetterGrid();
    DocumentPages(data, 612, 792, widthOf, heightOf);
    BatchCount(|data|, 14, if |data| == 20 then 2 else 1);
    if |data| == 20 {
      ChunkAt(data, 14, 1);
    }
  }
}
