# Precedence cards

A model of the two card generators of the precedence-card tool. Both read
the rows of a spreadsheet, find the column holding each person's name
("nombre") and the column holding their role ("cargo"), and print one card
per person, fourteen to a page:

- `generador.js` builds an HTML document (one `<div class="page">` of up
  to 14 cards per page, each cell escaped and upper-cased) that a headless
  browser prints.
- `index.js` draws the cards directly with PDFKit: it computes how many
  280 x 95 cards fit across and down the page (2 x 7 on a LETTER page),
  places card `idx` of each page in its grid slot, shrinks the name (from
  14 pt) and the role (from 10 pt) one point at a time until the text is
  no wider than the 182-point text box or the size reaches 6, and centres
  the two lines vertically in the card.

Modules, each in its own file:

| file | module | what it holds |
|---|---|---|
| text.dfy | Text | ASCII upper/lower case, substring search, case-insensitive search |
| cells.dfy | Cells | spreadsheet cells, `row[key]`, JavaScript truthiness, `String(v \|\| '')` |
| headers.dfy | Headers | `headers.find`, column detection with the two-column fallback |
| batches.dfy | Batches | `slice`, cutting a list into batches of k, ceiling division |
| escape.dfy | Escape | `escapeHtml` and its inverse |
| html.dfy | HtmlCards | `buildHtml`: the page loop and the card markup |
| grid.dfy | Grid | the `CARD` geometry, columns, rows, slot positions |
| fit.dfy | FontFit | the font shrink loops |
| pdf.dfy | PdfCards | normalisation of rows and `generatePdf` without the drawing |

The page loops, the shrink loops and the per-page card loop are methods
with loop invariants, each proved equal to a specification function
(`Chunks`, `Fit`, `PlanPage`, `PlanDocument`); the properties of the
program are lemmas about those functions. What PDFKit would draw is
described by values: a `CardPlan` holds the border rectangle, the logo
placement and the two text runs (text, face, size, position, width) of a
card. The text measurements `doc.widthOfString` and `doc.heightOfString`
depend on font metrics and are parameters (`WidthOf`, `HeightOf`); every
property holds for every measurer, and the few that need a measurer to
behave (larger sizes are never narrower) say so in their preconditions.

Where the two generators differ, both are modelled: `generador.js` tests a
header with `toLowerCase().includes(...)` and `index.js` with a `/.../i`
regular expression (`Headers.DetectColumnsByPattern` proves that the two
pick the same columns). The HTML generator's page size of 14 is a
constant; the PDF generator's is computed from the page size and is 14 on
a LETTER page (`Grid.LetterGrid`).

A few behaviours one might expect from a card generator are not in the
code, and the model follows the code:

- The shrink loop of `index.js` tests only the width of the text on one
  line; the number of lines the text would wrap to plays no part.
- Nothing rejects a page too small to hold one card: with zero or
  negative items per page the page loop of `index.js` never ends. `PdfCards.GeneratePdf`
  therefore requires that a non-empty list of records fits at least one
  column and one row (`Placeable`).
- A logo that cannot be loaded is skipped silently and the text box stays
  where it is; it is not widened.
- Cut marks exist only in the HTML version's style sheet, which is not
  modelled.

## Model

| member | source | states |
|---|---|---|
| Text.Upper | index.js:58-59 | `toUpperCase` keeps the length and maps each character on its own (lower-case ASCII letters to capitals) |
| Text.Lower | generador.js:49-50 | `toLowerCase` keeps the length and maps each character on its own (ASCII capitals to lower case) |
| Text.Contains | generador.js:49-50 | `s.includes(p)`: p is a prefix of s or occurs in the rest of s after its first character |
| Text.ContainsIgnoringCase | index.js:46-47 | `/p/i.test(s)`: p occurs in s when letters are compared by their upper case |
| Text.ContainsAt | generador.js:49-50 | `includes(p)` holds exactly when p occurs at some index of the text |
| Text.IgnoringCaseIsLowerContains | index.js:46-47 | for a lower-case pattern, matching `/p/i` is the same as `toLowerCase().includes(p)`, both directions |
| Text.SameLetterEitherCase | index.js:46-47 | two characters agree after upper-casing exactly when they agree after lower-casing |
| Cells.Truthy | index.js:58-59 | the operand of `\|\| ''`: the empty string, 0, false and a missing cell (`undefined`) are falsy, everything else is truthy |
| Cells.CellText | index.js:58-59 | `String(r[key] \|\| '')` (with `r[key]` a blank when the row lacks the key) is empty exactly for a falsy cell and is the text itself for a text cell |
| Cells.Stringify | index.js:58-59 | `String(v)` of a truthy cell is non-empty and is the text itself for a text cell |
| Cells.NatToString | index.js:58-59 | the decimal text of a whole number is a non-empty string of digits that starts with 0 only for 0 |
| Cells.NatToStringRoundTrip | index.js:58-59 | reading the decimal text of a number back gives the number |
| Cells.Normalized | index.js:58-59 | `String(v \|\| '').toUpperCase()` is as long as the cell's text |
| Cells.NormalizedCell | index.js:58-59 | the normalised cell is empty exactly when the cell is falsy; a text cell keeps its length and is upper-cased character by character |
| Headers.Find | generador.js:49-50 | `headers.find(test)` is the index of the first header that passes, and there is none exactly when no header passes |
| Headers.Detect | generador.js:48-60 | the headers are rejected exactly when a column is missing and there are not exactly two headers; with both found, the first matches are used; with one missing and two headers, the first is the name and the second the role |
| Headers.NameHeader | generador.js:49 | the name column test `h.toLowerCase().includes('nombre')` |
| Headers.RoleHeader | generador.js:50 | the role column test `h.toLowerCase().includes('cargo')` |
| Headers.NameHeaderPattern | index.js:46 | the name column test `/nombre/i.test(h)` |
| Headers.RoleHeaderPattern | index.js:47 | the role column test `/cargo/i.test(h)` |
| Headers.DetectColumns | generador.js:48-60 | column detection of the HTML generator: `Detect` with the two `includes` tests, whose three outcomes `Headers.Detect` states |
| Headers.FindAgrees | index.js:46-47 | two tests that agree on every header find the same one |
| Headers.DetectColumnsByPattern | index.js:45-54 | detection with `/nombre/i` and `/cargo/i` picks the same columns (or the same rejection) as detection with `toLowerCase().includes` |
| Batches.SliceContents | generador.js:113 | `slice(lo, hi)` holds the elements from lo on, as many as lie before both hi and the end: none when lo is past the end |
| Batches.Chunks | index.js:81-83 | the batches of k consecutive items in order, the last one possibly shorter; its meaning is stated by FlattenChunks, ChunkSizes and ChunkAt |
| Batches.CeilDiv | index.js:81 | the number of batches is the least c with n <= c * k |
| Batches.BatchCount | index.js:81 | a loop that stops at the first p with p * k >= n runs ceil(n / k) times |
| Batches.FlattenChunks | generador.js:112-113 | putting the batches back together gives the list: nothing is lost, repeated or reordered |
| Batches.ChunkSizes | index.js:81-83 | there are ceil(n / k) batches, every batch but the last holds exactly k items, and the last holds between 1 and k |
| Batches.ChunkAt | index.js:81-83 | batch p is `slice(p * k, p * k + k)` and starts inside the list |
| Batches.ChunkFrom | index.js:83 | batch p runs from p * k up to the smaller of p * k + k and the end |
| Escape.EscapeHtml | generador.js:125-127 | the text with each character replaced by its escape; never shorter than the input and empty only for empty input (its meaning is stated by the lemmas below) |
| Escape.EscapeChar | generador.js:126 | each of `& < > " '` becomes an entity starting with `&`; every other character is kept |
| Escape.EscapeAppend | generador.js:125-127 | escaping works character by character: it distributes over concatenation |
| Escape.EscapeIdentity | generador.js:125-127 | text with none of the five characters is unchanged |
| Escape.EscapeIsWellEscaped | generador.js:125-127 | the output has no raw `<`, `>`, `"` or `'`, and each `&` in it begins one of the five entities |
| Escape.UnescapeEscape | generador.js:125-127 | decoding the entities gives back the original text |
| Escape.EscapeInjective | generador.js:125-127 | different texts escape to different texts |
| Escape.EscapeLength | generador.js:126 | the output is 4 longer per `&` or `'`, 3 per `<` or `>`, and 5 per `"` |
| HtmlCards.PaginateRows | generador.js:112-113 | the loop `for (i = 0; i < n; i += 14) push(slice(i, i + 14))` yields the batches of 14 of the rows |
| HtmlCards.CellHtml | generador.js:116-117 | a card cell is empty for a falsy cell, decodes to the upper-cased cell text, and is safely escaped |
| HtmlCards.BuildHtml | generador.js:112-121 | the page markup is one page wrapper per batch of 14 rows, in order, and is empty exactly when there are no rows |
| HtmlCards.CardHtml | generador.js:118 | the card markup: the logo, then the name cell, then the role cell, each from CellHtml |
| HtmlCards.PageHtml | generador.js:120 | the page wrapper around the cards of one batch |
| HtmlCards.PagesHtml | generador.js:114-121 | the page markups of all batches joined without a separator |
| HtmlCards.JoinMapAppend | generador.js:114-121 | `map(f).join('')` distributes over concatenation of the list |
| HtmlCards.JoinMapFlatten | generador.js:114-121 | joining per batch and then joining the results equals joining over the whole list |
| HtmlCards.CardsInRowOrder | generador.js:114-121 | across all pages, the cards are those of the rows, each once and in row order |
| HtmlCards.PageHoldsRows | generador.js:113-120 | page p holds the cards of rows 14p up to 14p + 13 (or the last row) |
| Grid.FitCount | index.js:75-76 | the computed count of cards fits in the span with its gaps, and one more would not |
| Grid.Columns | index.js:75 | `columns`: that many cards with their gaps fit between the left and right margins, and one more would not |
| Grid.Rows | index.js:76 | `rowsCount`: that many cards with their gaps fit between the top and bottom margins, and one more would not |
| Grid.ItemsPerPage | index.js:77 | `itemsPerPage = columns * rowsCount` |
| Grid.SlotOrigin | index.js:85-88 | the top-left corner of card idx: column `idx % columns`, row `floor(idx / columns)`, each a card and a gap apart, from the margin |
| Grid.SlotRect | index.js:94 | the border rectangle drawn for card idx: its slot origin with the card's width and height |
| Grid.LetterGrid | index.js:73-77 | on a 612 x 792 page the grid is 2 columns by 7 rows, 14 cards per page |
| Grid.LastItemFits | index.js:85-88 | the item in any counted position along a line ends inside the span |
| Grid.SlotInsideMargins | index.js:85-88 | every slot of a page lies inside the page margins on all four sides |
| Grid.SlotsDisjoint | index.js:85-88 | two different slots never overlap and never share a top-left corner |
| FontFit.Fit | index.js:107-112 | the chosen size is at most the start size, at least 6 when the start is above 6, and the start when it is 6 or less |
| FontFit.ShrinkToFit | index.js:107-112 | the shrink loop ends at the size `Fit` chooses |
| FontFit.FitIsLargest | index.js:107-112 | every size above the chosen one, up to the start, is too wide; if the chosen size is too wide it is 6 and every size is too wide |
| FontFit.FitDownwardClosed | index.js:116-121 | when larger sizes are never narrower and the text fits at the chosen size, the sizes that fit are exactly 6 up to the chosen one |
| FontFit.FitNarrowerText | index.js:107-112 | a text no wider than another at every size the loop tries (above 6, up to the start) gets a size at least as large |
| PdfCards.NormalizeRow | index.js:57-60 | one record: name and position are the normalised cells `r[nombreKey]` and `r[cargoKey]` |
| PdfCards.Normalize | index.js:57-60 | one record per row, each holding the normalised name and role cells |
| PdfCards.NormalizeBlank | index.js:57-60 | a record's name (role) is empty exactly when its cell is falsy |
| PdfCards.PlanCard | index.js:84-135 | the card border is its grid slot; the logo is drawn at (x + 8, y + 8), 80 wide, and ends 10 before the text box; the text box starts 98 in and ends at the card's right edge; name and role use their faces and shrink sizes, within 6..14 and 6..10; the role is 4 below the name; the space above the name equals the space below the role |
| PdfCards.ComposeCard | index.js:84-136 | the card drawn by the loop body, with both shrink loops run, is the planned card |
| PdfCards.ComposePage | index.js:84-136 | the `forEach` over a page's items draws card idx of item idx in slot idx |
| PdfCards.PlanPage | index.js:84-136 | the cards of one page: item idx is planned in slot idx |
| PdfCards.PlanDocument | index.js:81-137 | no pages for no records; otherwise one planned page per batch of itemsPerPage records, in order |
| PdfCards.GeneratePdf | index.js:73-137 | the page loop `for (p = 0; p * itemsPerPage < n; p++)` plans, page by page, the batches of itemsPerPage records |
| PdfCards.DocumentPages | index.js:77-83 | no records give no pages; otherwise there are ceil(n / itemsPerPage) pages, all full but the last, which is not empty |
| PdfCards.DocumentCardAt | index.js:81-88 | card i of page p is record p * itemsPerPage + i placed in slot i |
| PdfCards.DocumentCardsPlaced | index.js:84-96 | every card lies inside the page margins and no two cards of a page overlap |
| PdfCards.LetterDocument | index.js:73-83 | on a LETTER page, 20 records make a page of 14 and a page of 6, and 14 records make exactly one page |

## Left out

- Reading the spreadsheet, the command-line arguments, the empty-file check and the exit codes (generador.js:29-45, index.js:29-42): input and process control; the model starts from the rows and from the header list of the first row.
- Writing `precedes.html`, Puppeteer's printing (generador.js:129-151) and PDFKit's drawing, streams and promise (index.js:67-71, 90-96, 139-142): output only; the model computes what would be drawn.
- The style sheet and the in-browser shrink script of `buildHtml` (generador.js:81-111), and the document template around the pages (generador.js:122): they run in the browser; the model covers the page markup.
- The logo file: loading it may fail and is then skipped (index.js:99-101); the model records where it would be drawn.
- `doc.widthOfString` and `doc.heightOfString`: font metrics; they are parameters.
- Text.Upper, Text.Lower: map ASCII letters only; JavaScript's Unicode case mapping (accented letters, characters whose upper case is longer) is not modelled.
- Cells.Stringify: numeric cells are whole numbers; fractions, exponents and dates from the spreadsheet are not modelled.
- Page sizes are whole numbers of points, as PDFKit's LETTER page is; negative or zero-sized pages, and the resulting negative column counts, are not modelled.
- PdfCards.GeneratePdf: requires a page that holds at least one column and one row when there are records; index.js loops forever when itemsPerPage is zero or negative, and a page so small that both counts are negative (itemsPerPage positive, the loop ends) is not modelled either.
