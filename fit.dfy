/** The font-size shrink loops of index.js: start at a given size and,
    while the text measured on one line is wider than the text box and the
    size is still above 6, go down one point. The measurement,
    `doc.widthOfString`, comes from PDFKit's font metrics and is a
    parameter here. Only the width is tested; the number of lines the
    text would wrap to plays no part. */
module FontFit {

  /** The two faces the cards use: 'Helvetica-Bold' for the name,
      'Helvetica' for the role. */
  datatype Face = Bold | Regular

  const MinSize: int := 6
  const NameStartSize: int := 14
  const RoleStartSize: int := 10

  /** `doc.widthOfString(text)` with the document set to a face and size. */
  type WidthOf = (Face, int, string) -> real

  predicate TooWide(widthOf: WidthOf, face: Face, text: string, size: int, boxWidth: int) {
    widthOf(face, size, text) > boxWidth as real
  }

  /** The size the shrink loop settles on when it starts at `size`. */
  function Fit(widthOf: WidthOf, face: Face, text: string, size: int, boxWidth: int): (r: int)
    ensures r <= size
    ensures size > MinSize ==> r >= MinSize
    ensures size <= MinSize ==> r == size
    decreases size
  {
    if TooWide(widthOf, face, text, size, boxWidth) && size > MinSize
    then Fit(widthOf, face, text, size - 1, boxWidth)
    else size
  }

  /** The loop itself:
      `while (widthOfString(text) > textW && size > 6) size -= 1`. */
  method ShrinkToFit(widthOf: WidthOf, face: Face, text: string, start: int, boxWidth: int)
    returns (size: int)
    ensures size == Fit(widthOf, face, text, start, boxWidth)
  {
    size := start;
    while TooWide(widthOf, face, text, size, boxWidth) && size > MinSize
      invariant Fit(widthOf, face, text, size, boxWidth) == Fit(widthOf, face, text, start, boxWidth)
      decreases size
    {
      size := size - 1;
    }
  }

  /** The chosen size is the largest size from 6 up to the start at which
      the text is no wider than the box; when there is none, it is 6 and
      the text overflows. */
  lemma {:induction false} FitIsLargest(widthOf: WidthOf, face: Face, text: string, start: int, boxWidth: int)
    requires start >= MinSize
    ensures var r := Fit(widthOf, face, text, start, boxWidth);
      MinSize <= r <= start
      && (forall s :: r < s <= start ==> TooWide(widthOf, face, text, s, boxWidth))
      && (TooWide(widthOf, face, text, r, boxWidth) ==>
            r == MinSize && forall s :: MinSize <= s <= start ==> TooWide(widthOf, face, text, s, boxWidth))
    decreases start
  {
    if TooWide(widthOf, face, text, start, boxWidth) && start > MinSize {
      FitIsLargest(widthOf, face, text, start - 1, boxWidth);
    }
  }

  /** When wider text is never narrower at a larger size, the sizes that
      fit are exactly those from 6 up to the chosen one. */
  lemma FitDownwardClosed(widthOf: WidthOf, face: Face, text: string, start: int, boxWidth: int)
    requires start >= MinSize
    requires forall s, t :: s <= t ==> widthOf(face, s, text) <= widthOf(face, t, text)
    requires !TooWide(widthOf, face, text, Fit(widthOf, face, text, start, boxWidth), boxWidth)
    ensures forall s :: MinSize <= s <= start ==>
      (!TooWide(widthOf, face, text, s, boxWidth) <==> s <= Fit(widthOf, face, text, start, boxWidth))
  {
    FitIsLargest(widthOf, face, text, start, boxWidth);
  }

  /** A text that is nowhere wider than another gets a size at least as
      large: shortening a name never makes it smaller. */
  lemma {:induction false} FitNarrowerText(widthOf: WidthOf, face: Face, short: string, long: string, start: int, boxWidth: int)
    requires forall s :: MinSize < s <= start ==> widthOf(face, s, short) <= widthOf(face, s, long)
    ensures Fit(widthOf, face, short, start, boxWidth) >= Fit(widthOf, face, long, start, boxWidth)
    decreases start
  {
    if TooWide(widthOf, face, long, start, boxWidth) && start > MinSize {
      FitNarrowerText(widthOf, face, short, long, start - 1, boxWidth);
    }
  }
}
