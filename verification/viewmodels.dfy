/**
 * Values exchanged between the LSTMVis coordinator and its rendering
 * surfaces, and the pure rules that derive them: the zoom and pan
 * arithmetic, the indexed cell values handed to the line plot, the
 * background colours of the word sequence, and the view-only aliases
 * added to matching-result rows.
 */
module ViewModels {

  datatype Option<T> = None | Some(value: T)

  // ---------------------------------------------------------------------
  // Zoom and pan
  // ---------------------------------------------------------------------

  /** The zoom buttons never leave the cell width below this. */
  const MinCellWidth: int := 5
  /** How much one click on a zoom button changes the cell width. */
  const ZoomStep: int := 5
  /** How far one click on a pan button moves the context position. */
  const PanStep: int := 5
  /** The word sequence is drawn at x = WordSequenceLeft - cellWidth. */
  const WordSequenceLeft: int := 60

  /** Cell width after a click on the "smaller" button. */
  function ZoomOut(width: int): (r: int)
    ensures r >= MinCellWidth
    ensures width >= MinCellWidth + ZoomStep ==> r == width - ZoomStep
    ensures width <= MinCellWidth + ZoomStep ==> r == MinCellWidth
  {
    if width - ZoomStep > MinCellWidth then width - ZoomStep else MinCellWidth
  }

  /** Cell width after a click on the "larger" button. */
  function ZoomIn(width: int): (r: int)
    ensures r > width
  {
    width + ZoomStep
  }

  /** A click on "larger" adds exactly one step, whatever the width. */
  lemma ZoomInAddsStep(width: int)
    ensures ZoomIn(width) == width + ZoomStep
  {
  }

  /** Zooming in and then out restores every width the buttons can produce. */
  lemma ZoomOutUndoesZoomIn(width: int)
    requires width >= MinCellWidth
    ensures ZoomOut(ZoomIn(width)) == width
  {
  }

  /** A brush as the word sequence reports it: the pair [lo, hi] of word positions. */
  datatype Range = Range(lo: int, hi: int)

  function Width(brush: Range): (w: int)
  {
    brush.hi - brush.lo
  }

  /**
   * The word brush after the context position moved by `offset`: both ends
   * move the opposite way, so that the brush stays on the same words; an
   * absent brush stays absent.
   */
  function Shift(brush: Option<Range>, offset: int): (r: Option<Range>)
    ensures r.None? <==> brush.None?
    ensures brush.Some? ==> r.value.lo == brush.value.lo - offset
    ensures brush.Some? ==> Width(r.value) == Width(brush.value)
  {
    match brush
    case None => None
    case Some(b) => Some(Range(b.lo - offset, b.hi - offset))
  }

  /** Panning by `offset` and then by `-offset` restores the brush exactly. */
  lemma ShiftBack(brush: Option<Range>, offset: int)
    ensures Shift(Shift(brush, offset), -offset) == brush
  {
  }

  // ---------------------------------------------------------------------
  // Line plot data
  // ---------------------------------------------------------------------

  /** One cell's activations over the context window, with the cell's index. */
  datatype CellValue = CellValue(values: seq<real>, index: int)

  /** Pairs every row of `data` with its position, counting from `first`. */
  function IndexedFrom(data: seq<seq<real>>, first: int): (r: seq<CellValue>)
    ensures |r| == |data|
    ensures forall i :: 0 <= i < |data| ==> r[i] == CellValue(data[i], first + i)
    decreases |data|
  {
    if data == [] then []
    else [CellValue(data[0], first)] + IndexedFrom(data[1..], first + 1)
  }

  /** The cell values handed to the line plot: row `i` of the activations, tagged with index `i`. */
  function CellValues(data: seq<seq<real>>): (r: seq<CellValue>)
    ensures |r| == |data|
    ensures forall i :: 0 <= i < |r| ==> r[i].index == i && r[i].values == data[i]
  {
    IndexedFrom(data, 0)
  }

  // ---------------------------------------------------------------------
  // Word background colours
  // ---------------------------------------------------------------------

  /** The largest entry of `s`, absent when `s` is empty. */
  function Max(s: seq<real>): (r: Option<real>)
    ensures r.None? <==> s == []
    ensures r.Some? ==> r.value in s
    ensures r.Some? ==> forall x :: x in s ==> x <= r.value
  {
    if s == [] then None
    else
      assert s == [s[0]] + s[1..];
      match Max(s[1..])
      case None => Some(s[0])
      case Some(m) => Some(if s[0] >= m then s[0] else m)
  }

  /**
   * The colour a linear scale with domain [0, top] gives to `value`; the
   * interpolation between the two end colours is not modelled.
   */
  datatype Colour = Shade(value: real, top: real)

  /** Applies the scale with domain [0, top] to every entry of `vs`. */
  function ShadesFor(vs: seq<real>, top: real): (r: seq<Colour>)
    ensures |r| == |vs|
    ensures forall i :: 0 <= i < |vs| ==> r[i] == Shade(vs[i], top)
    decreases |vs|
  {
    if vs == [] then [] else [Shade(vs[0], top)] + ShadesFor(vs[1..], top)
  }

  /**
   * The word backgrounds for a sum vector: one colour per entry, every one
   * taken from the same scale, whose domain ends at the largest entry.
   */
  function Backgrounds(sumVec: seq<real>): (r: seq<Colour>)
    ensures |r| == |sumVec|
    ensures forall i :: 0 <= i < |r| ==> r[i].value == sumVec[i]
    ensures forall i :: 0 <= i < |r| ==> r[i].top in sumVec
    ensures forall i, x :: 0 <= i < |r| && x in sumVec ==> x <= r[i].top
    ensures forall i, j :: 0 <= i < |r| && 0 <= j < |r| ==> r[i].top == r[j].top
  {
    match Max(sumVec)
    case None => []
    case Some(top) => ShadesFor(sumVec, top)
  }

  /**
   * What the word sequence is told to paint for a cell selection: nothing
   * (null) when the selection is empty, otherwise one colour per entry of
   * the selection's sum vector.
   */
  function WordBackgrounds(selection: seq<int>, sumVec: seq<real>): (r: Option<seq<Colour>>)
    ensures r.None? <==> selection == []
    ensures r.Some? ==> |r.value| == |sumVec|
    ensures r.Some? ==> forall i :: 0 <= i < |sumVec| ==> r.value[i].value == sumVec[i]
  {
    if selection == [] then None else Some(Backgrounds(sumVec))
  }

  // ---------------------------------------------------------------------
  // Matching results
  // ---------------------------------------------------------------------

  /**
   * One row of the matching results. `posOffset` and `rowId` are the
   * view-only aliases the coordinator adds; they are absent in a row as
   * the backend delivers it.
   */
  datatype Row = Row(pos: int, left: int, matchScore: real, posOffset: Option<int>, rowId: Option<int>)

  predicate Tagged(row: Row)
  {
    row.posOffset == Some(row.left) && row.rowId == Some(row.pos)
  }

  /** A row with its aliases set: `posOffset` copies `left` and `rowId` copies `pos`. */
  function Tag(row: Row): (r: Row)
    ensures Tagged(r)
    ensures r.pos == row.pos && r.left == row.left && r.matchScore == row.matchScore
  {
    row.(posOffset := Some(row.left), rowId := Some(row.pos))
  }

  /** Tagging a row that is already tagged changes nothing. */
  lemma TagIdempotent(row: Row)
    ensures Tagged(row) ==> Tag(row) == row
    ensures Tag(Tag(row)) == Tag(row)
  {
  }

  /** Tags every row of `rows` in place, leaving the number of rows as it was. */
  method TagRows(rows: array<Row>)
    modifies rows
    ensures forall i :: 0 <= i < rows.Length ==> rows[i] == Tag(old(rows[i]))
  {
    var i := 0;
    while i < rows.Length
      invariant 0 <= i <= rows.Length
      invariant forall k :: 0 <= k < i ==> rows[k] == Tag(old(rows[k]))
      invariant forall k :: i <= k < rows.Length ==> rows[k] == old(rows[k])
    {
      rows[i] := Tag(rows[i]);
      i := i + 1;
    }
  }
}
