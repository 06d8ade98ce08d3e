/** The card pages of generador.js's `buildHtml`: the rows are cut into
    pages of 14 by a counting loop, and each row becomes one card whose
    name and role are the escaped, upper-cased cell texts. The style sheet,
    the browser-side shrink script and the document template around the
    pages are not modelled. */
module HtmlCards {
  import opened Cells
  import opened Escape
  import opened Batches

  /** Rows per printed page. */
  const CardsPerPage: nat := 14

  /** The page loop of `buildHtml`: starting at 0 and stepping by 14, each
      step pushes `data.slice(i, i + 14)`. */
  method PaginateRows<T>(data: seq<T>) returns (pages: seq<seq<T>>)
    ensures pages == Chunks(data, CardsPerPage)
  {
    var k := CardsPerPage;
    pages := [];
    var i := 0;
    while i < |data|
      invariant i == |pages| * k
      invariant |pages| > 0 ==> (|pages| - 1) * k < |data|
      invariant forall p :: 0 <= p < |pages| ==> pages[p] == Slice(data, p * k, p * k + k)
    {
      pages := pages + [Slice(data, i, i + k)];
      i := i + k;
    }
    BatchCount(|data|, k, |pages|);
    ChunkSizes(data, k);
    forall p | 0 <= p < |pages| ensures pages[p] == Chunks(data, k)[p] {
      ChunkAt(data, k, p);
    }
  }

  /** `escapeHtml(String(row[key] || '').toUpperCase())` */
  function CellHtml(row: Row, key: string): (r: string)
    ensures !Truthy(Lookup(row, key)) ==> r == ""
    ensures Unescape(r) == Normalized(Lookup(row, key))
    ensures WellEscaped(r)
  {
    NormalizedCell(Lookup(row, key));
    UnescapeEscape(Normalized(Lookup(row, key)));
    EscapeIsWellEscaped(Normalized(Lookup(row, key)));
    EscapeHtml(Normalized(Lookup(row, key)))
  }

  /** The markup of one card: the logo, then the name, then the role. */
  function CardHtml(row: Row, nameKey: string, roleKey: string, logoUrl: string): string {
    "<div class=\"card\"><img class=\"logo\" src=\"" + logoUrl
      + "\"/><div class=\"text\"><div class=\"name\">" + CellHtml(row, nameKey)
      + "</div><div class=\"position\">" + CellHtml(row, roleKey) + "</div></div></div>"
  }

  /** `xs.map(f).join('')` */
  function JoinMap<T>(xs: seq<T>, f: T -> string): string {
    if xs == [] then "" else f(xs[0]) + JoinMap(xs[1..], f)
  }

  /** `row => card markup`, the callback of the inner `map`. */
  function CardOf(nameKey: string, roleKey: string, logoUrl: string): Row -> string {
    row => CardHtml(row, nameKey, roleKey, logoUrl)
  }

  /** The cards of a list of rows, one after another. */
  function CardsHtml(rows: seq<Row>, nameKey: string, roleKey: string, logoUrl: string): string {
    JoinMap(rows, CardOf(nameKey, roleKey, logoUrl))
  }

  function PageHtml(page: seq<Row>, nameKey: string, roleKey: string, logoUrl: string): string {
    "<div class=\"page\">" + CardsHtml(page, nameKey, roleKey, logoUrl) + "</div>"
  }

  /** `pageData => page markup`, the callback of the outer `map`. */
  function PageOf(nameKey: string, roleKey: string, logoUrl: string): seq<Row> -> string {
    page => PageHtml(page, nameKey, roleKey, logoUrl)
  }

  /** The pages, one after another. */
  function PagesHtml(pages: seq<seq<Row>>, nameKey: string, roleKey: string, logoUrl: string): string {
    JoinMap(pages, PageOf(nameKey, roleKey, logoUrl))
  }

  /** `pageData => cards markup`: a page without its wrapper. */
  function CardsOf(nameKey: string, roleKey: string, logoUrl: string): seq<Row> -> string {
    page => CardsHtml(page, nameKey, roleKey, logoUrl)
  }

  /** The cards of all pages with the page wrappers taken away. */
  function PageCards(pages: seq<seq<Row>>, nameKey: string, roleKey: string, logoUrl: string): string {
    JoinMap(pages, CardsOf(nameKey, roleKey, logoUrl))
  }

  /** The page markup of `buildHtml` (the body of the document). */
  method BuildHtml(data: seq<Row>, nameKey: string, roleKey: string, logoUrl: string)
    returns (body: string)
    ensures body == PagesHtml(Chunks(data, CardsPerPage), nameKey, roleKey, logoUrl)
    ensures data == [] <==> body == ""
  {
    var pages := PaginateRows(data);
    body := PagesHtml(pages, nameKey, roleKey, logoUrl);
    if data != [] {
      assert pages[0] == data[..Min(CardsPerPage, |data|)];
    }
  }

  lemma {:induction false} JoinMapAppend<T>(a: seq<T>, b: seq<T>, f: T -> string)
    ensures JoinMap(a + b, f) == JoinMap(a, f) + JoinMap(b, f)
  {
    if a == [] {
      assert a + b == b;
    } else {
      assert (a + b)[0] == a[0];
      assert (a + b)[1..] == a[1..] + b;
      JoinMapAppend(a[1..], b, f);
    }
  }

  /** Joining each batch and then the results is joining the flattened
      batches. */
  lemma {:induction false} JoinMapFlatten<T>(pages: seq<seq<T>>, f: T -> string, g: seq<T> -> string)
    requires forall page :: g(page) == JoinMap(page, f)
    ensures JoinMap(pages, g) == JoinMap(Flatten(pages), f)
  {
    if pages != [] {
      JoinMapFlatten(pages[1..], f, g);
      JoinMapAppend(pages[0], Flatten(pages[1..]), f);
    }
  }

  /** Across the pages, the cards are those of the rows in their order:
      none is lost, repeated or moved. */
  lemma CardsInRowOrder(data: seq<Row>, nameKey: string, roleKey: string, logoUrl: string)
    ensures PageCards(Chunks(data, CardsPerPage), nameKey, roleKey, logoUrl)
      == CardsHtml(data, nameKey, roleKey, logoUrl)
  {
    JoinMapFlatten(Chunks(data, CardsPerPage), CardOf(nameKey, roleKey, logoUrl),
                   CardsOf(nameKey, roleKey, logoUrl));
    FlattenChunks(data, CardsPerPage);
  }

  /** Page p holds the cards of rows 14p up to 14p + 13 (or the last row). */
  lemma PageHoldsRows(data: seq<Row>, nameKey: string, roleKey: string, logoUrl: string, p: nat)
    requires p < |Chunks(data, CardsPerPage)|
    ensures p * CardsPerPage < |data|
    ensures PageHtml(Chunks(data, CardsPerPage)[p], nameKey, roleKey, logoUrl)
      == "<div class=\"page\">"
        + CardsHtml(data[p * CardsPerPage..Min(p * CardsPerPage + CardsPerPage, |data|)], nameKey, roleKey, logoUrl)
        + "</div>"
  {
    ChunkAt(data, CardsPerPage, p);
  }
}
