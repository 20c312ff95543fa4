/**
 * The LSTMVis application object: it wires the session controller to the
 * rendering surfaces (line plot, word sequence, cell list, result list) and
 * keeps them consistent with the controller's state when the user zooms,
 * pans, brushes, changes the threshold or asks for matches, and when the
 * backend delivers a new context or new matching results.
 *
 * Each surface is represented by the view-model it was last given; every
 * call this object makes into the controller is recorded in the ghost log
 * `calls`, with a snapshot of the controller fields written before it.
 */
module Apps {
  import opened ViewModels

  datatype MatchMode = Precise | Fast

  /** The activations of the current context window: `data[c]` is cell `c` over time. */
  datatype Window = Window(left: int, right: int, data: seq<seq<real>>)

  /**
   * A call into the controller, with a snapshot of the controller fields
   * this object has written before making it.
   */
  datatype Call =
    | InitByUrlAndRun
    | CellSelection(recalc: bool, wordBrush: Option<Range>, wordBrushZero: Option<Range>, threshold: real)
    | SumCellValues(cells: seq<int>)
    | RequestContext(pos: int, wordBrush: Option<Range>)
    | RequestMatch(mode: MatchMode, metaDims: seq<string>)

  /**
   * The controller calls one cell-selection pass makes: the selection query,
   * then, only for a non-empty selection, the sum of the selected cells.
   */
  function SelectionCalls(recalc: bool, brush: Option<Range>, zero: Option<Range>, threshold: real,
                          selection: seq<int>): (r: seq<Call>)
    ensures 1 <= |r| <= 2
    ensures r[0] == CellSelection(recalc, brush, zero, threshold)
    ensures |r| == 2 <==> selection != []
    ensures |r| == 2 ==> r[1] == SumCellValues(selection)
  {
    [CellSelection(recalc, brush, zero, threshold)] + if selection == [] then [] else [SumCellValues(selection)]
  }

  /**
   * The session controller's state as this object reads and writes it. Its
   * own behaviour (fetching, selection, summing) is not part of the model:
   * its answers reach the handlers below as parameters. `metaKeys` are the
   * keys of the project metadata's `meta` dimensions.
   */
  class Controller {
    var cellWidth: int
    var pos: int
    var wordBrush: Option<Range>
    var wordBrushZero: Option<Range>
    var threshold: real
    var states: Window
    var words: seq<string>
    var matchingWordMatrix: array<Row>
    var metaKeys: seq<string>

    /**
     * A controller holding the given values. The controller's own defaults
     * are not part of this model: the caller chooses the starting state.
     */
    constructor (cellWidth: int, pos: int, threshold: real, metaKeys: seq<string>)
      ensures this.cellWidth == cellWidth && this.pos == pos && this.threshold == threshold
      ensures this.metaKeys == metaKeys
      ensures wordBrush == None && wordBrushZero == None
      ensures states == Window(0, 0, []) && words == []
      ensures fresh(matchingWordMatrix) && matchingWordMatrix.Length == 0
    {
      this.metaKeys := metaKeys;
      this.cellWidth := cellWidth;
      this.pos := pos;
      this.threshold := threshold;
      wordBrush := None;
      wordBrushZero := None;
      states := Window(0, 0, []);
      words := [];
      matchingWordMatrix := new Row[0];
    }
  }

  /** What the line plot was last given. */
  datatype LinePlotView = LinePlotView(cellWidth: int, timeSteps: int, cellValues: seq<CellValue>,
                                       threshold: real, selectedCells: seq<int>)

  /** What the word sequence was last given; `x` is its horizontal offset. */
  datatype WordSequenceView = WordSequenceView(cellWidth: int, x: int, words: seq<string>,
                                               wordBrush: Option<Range>, wordBrushZero: Option<Range>,
                                               backgrounds: Option<seq<Colour>>)

  /** What the cell list was last given. */
  datatype CellListView = CellListView(cells: seq<int>)

  /** What the result list (the word matrix of matches) was last given. */
  datatype ResultListView = ResultListView(cellWidth: int, wordMatrix: seq<Row>)

  class LSTMVis {
    const controller: Controller
    var linePlot: LinePlotView
    var wordSequence: WordSequenceView
    var cellList: CellListView
    var resultList: ResultListView
    /** Whether the result panel is shown (opacity 1) or hidden (opacity 0). */
    var resultVisible: bool
    /** Every call this object has made into the controller, in order. */
    ghost var calls: seq<Call>

    /**
     * All surfaces draw cells with the controller's width, the word sequence
     * sits at 60 - width, and the result panel is shown only over rows that
     * already carry their aliases.
     */
    ghost predicate Valid()
      reads this, controller
    {
      && linePlot.cellWidth == controller.cellWidth
      && wordSequence.cellWidth == controller.cellWidth
      && resultList.cellWidth == controller.cellWidth
      && wordSequence.x == WordSequenceLeft - controller.cellWidth
      && ShownRowsTagged()
    }

    /** The result panel is shown only over rows that carry their aliases. */
    ghost predicate ShownRowsTagged()
      reads this
    {
      resultVisible ==> forall i :: 0 <= i < |resultList.wordMatrix| ==> Tagged(resultList.wordMatrix[i])
    }

    /**
     * Builds the surfaces with the controller's cell width, hides the result
     * panel, and finally lets the controller start from the URL.
     */
    constructor (controller: Controller)
      ensures this.controller == controller
      ensures Valid()
      ensures !resultVisible && calls == [InitByUrlAndRun]
      ensures linePlot.selectedCells == [] && cellList.cells == [] && resultList.wordMatrix == []
    {
      this.controller := controller;
      var w := controller.cellWidth;
      linePlot := LinePlotView(w, 0, [], 0.0, []);
      wordSequence := WordSequenceView(w, WordSequenceLeft - w, [], None, None, None);
      cellList := CellListView([]);
      resultVisible := false;
      resultList := ResultListView(w, []);
      calls := [InitByUrlAndRun];
    }

    // -------------------------------------------------------------------
    // Cell width
    // -------------------------------------------------------------------

    /** Hands the controller's cell width to the line plot, word sequence and result list. */
    method CellWidthUpdate()
      requires ShownRowsTagged()
      modifies this`linePlot, this`wordSequence, this`resultList
      ensures Valid()
      ensures linePlot == old(linePlot).(cellWidth := controller.cellWidth)
      ensures wordSequence == old(wordSequence).(cellWidth := controller.cellWidth,
                                                 x := WordSequenceLeft - controller.cellWidth)
      ensures resultList == old(resultList).(cellWidth := controller.cellWidth)
    {
      linePlot := linePlot.(cellWidth := controller.cellWidth);
      wordSequence := wordSequence.(cellWidth := controller.cellWidth);
      wordSequence := wordSequence.(x := WordSequenceLeft - controller.cellWidth);
      resultList := resultList.(cellWidth := controller.cellWidth);
    }

    /** The "smaller" button. */
    method Smaller()
      requires Valid()
      modifies controller`cellWidth, this`linePlot, this`wordSequence, this`resultList
      ensures Valid()
      ensures controller.cellWidth == ZoomOut(old(controller.cellWidth))
      ensures linePlot == old(linePlot).(cellWidth := controller.cellWidth)
      ensures wordSequence == old(wordSequence).(cellWidth := controller.cellWidth,
                                                 x := WordSequenceLeft - controller.cellWidth)
      ensures resultList == old(resultList).(cellWidth := controller.cellWidth)
    {
      controller.cellWidth := if MinCellWidth >= controller.cellWidth - ZoomStep then MinCellWidth
                              else controller.cellWidth - ZoomStep;
      CellWidthUpdate();
    }

    /** The "larger" button. */
    method Larger()
      requires Valid()
      modifies controller`cellWidth, this`linePlot, this`wordSequence, this`resultList
      ensures Valid()
      ensures controller.cellWidth == ZoomIn(old(controller.cellWidth))
      ensures linePlot == old(linePlot).(cellWidth := controller.cellWidth)
      ensures wordSequence == old(wordSequence).(cellWidth := controller.cellWidth,
                                                 x := WordSequenceLeft - controller.cellWidth)
      ensures resultList == old(resultList).(cellWidth := controller.cellWidth)
    {
      controller.cellWidth := controller.cellWidth + ZoomStep;
      CellWidthUpdate();
    }

    // -------------------------------------------------------------------
    // Matching
    // -------------------------------------------------------------------

    /** The "precise" and "fast" match buttons: hide the results, then ask for new ones. */
    method MatchRequested(mode: MatchMode)
      requires Valid()
      modifies this`resultVisible, this`calls
      ensures Valid()
      ensures !resultVisible
      ensures calls == old(calls) + [RequestMatch(mode, controller.metaKeys)]
    {
      resultVisible := false;
      calls := calls + [RequestMatch(mode, controller.metaKeys)];
    }

    /**
     * New matching results have arrived in the controller: tag each row in
     * place, hand the rows to the result list, and only then show the panel.
     */
    method OnMatchingResults()
      requires Valid()
      modifies controller.matchingWordMatrix, this`resultList, this`resultVisible
      ensures Valid()
      ensures forall i :: 0 <= i < controller.matchingWordMatrix.Length ==>
                controller.matchingWordMatrix[i] == Tag(old(controller.matchingWordMatrix[i]))
      ensures resultList == old(resultList).(wordMatrix := controller.matchingWordMatrix[..])
      ensures resultVisible
    {
      var wordMatrix := controller.matchingWordMatrix;
      TagRows(wordMatrix);
      resultList := resultList.(wordMatrix := wordMatrix[..]);
      resultVisible := true;
    }

    // -------------------------------------------------------------------
    // Position
    // -------------------------------------------------------------------

    /**
     * Moves the context position by `offset`, slides the word brush the
     * other way so that it stays on the same words, and asks for the new
     * context.
     */
    method ModifyPos(offset: int)
      requires Valid()
      modifies controller`wordBrush, controller`pos, this`calls
      ensures Valid()
      ensures controller.pos == old(controller.pos) + offset
      ensures controller.wordBrush == Shift(old(controller.wordBrush), offset)
      ensures controller.wordBrushZero == old(controller.wordBrushZero)
      ensures calls == old(calls) + [RequestContext(controller.pos, controller.wordBrush)]
    {
      var oldBrush := controller.wordBrush;
      if oldBrush.Some? {
        controller.wordBrush := Some(Range(oldBrush.value.lo - offset, oldBrush.value.hi - offset));
      }
      controller.pos := controller.pos + offset;
      calls := calls + [RequestContext(controller.pos, controller.wordBrush)];
    }

    /** The "next" pan button. */
    method IncPos()
      requires Valid()
      modifies controller`wordBrush, controller`pos, this`calls
      ensures Valid()
      ensures controller.pos == old(controller.pos) + PanStep
      ensures controller.wordBrush == Shift(old(controller.wordBrush), PanStep)
      ensures calls == old(calls) + [RequestContext(controller.pos, controller.wordBrush)]
    {
      ModifyPos(PanStep);
    }

    /** The "previous" pan button. */
    method DecPos()
      requires Valid()
      modifies controller`wordBrush, controller`pos, this`calls
      ensures Valid()
      ensures controller.pos == old(controller.pos) - PanStep
      ensures controller.wordBrush == Shift(old(controller.wordBrush), -PanStep)
      ensures calls == old(calls) + [RequestContext(controller.pos, controller.wordBrush)]
    {
      ModifyPos(-PanStep);
    }

    /**
     * A two-click scenario, "next" then "previous": position and brush end
     * as they were, and two context requests were made on the way.
     */
    method PanForwardAndBack()
      requires Valid()
      modifies controller`wordBrush, controller`pos, this`calls
      ensures Valid()
      ensures controller.pos == old(controller.pos)
      ensures controller.wordBrush == old(controller.wordBrush)
      ensures calls == old(calls) + [RequestContext(old(controller.pos) + PanStep, Shift(old(controller.wordBrush), PanStep)),
                                     RequestContext(old(controller.pos), old(controller.wordBrush))]
    {
      IncPos();
      DecPos();
      ShiftBack(old(controller.wordBrush), PanStep);
    }

    // -------------------------------------------------------------------
    // Cell selection
    // -------------------------------------------------------------------

    /**
     * Queries the controller's cell selection (its answer is `selection`)
     * and pushes it: the line plot marks the selected cells; an empty
     * selection clears the word backgrounds and the cell list, otherwise the
     * selection's sum vector (the controller's answer is `sumVec`) colours
     * the words and the cell list shows the selection.
     */
    method UpdateCellSelection(recalc: bool, selection: seq<int>, sumVec: seq<real>)
      requires Valid()
      modifies this`linePlot, this`wordSequence, this`cellList, this`calls
      ensures Valid()
      ensures calls == old(calls) + SelectionCalls(recalc, controller.wordBrush, controller.wordBrushZero,
                                                   controller.threshold, selection)
      ensures linePlot == old(linePlot).(selectedCells := selection)
      ensures wordSequence == old(wordSequence).(backgrounds := WordBackgrounds(selection, sumVec))
      ensures cellList.cells == selection
    {
      calls := calls + [CellSelection(recalc, controller.wordBrush, controller.wordBrushZero, controller.threshold)];
      linePlot := linePlot.(selectedCells := selection);
      if selection == [] {
        wordSequence := wordSequence.(backgrounds := None);
        cellList := CellListView([]);
      } else {
        calls := calls + [SumCellValues(selection)];
        wordSequence := wordSequence.(backgrounds := Some(Backgrounds(sumVec)));
        cellList := CellListView(selection);
      }
    }

    /** The word sequence reports a new brush: store it, then recompute the selection. */
    method OnBrushSelectionChanged(brush: Option<Range>, selection: seq<int>, sumVec: seq<real>)
      requires Valid()
      modifies controller`wordBrush, this`linePlot, this`wordSequence, this`cellList, this`calls
      ensures Valid()
      ensures controller.wordBrush == brush
      ensures calls == old(calls) + SelectionCalls(true, brush, controller.wordBrushZero,
                                                   controller.threshold, selection)
      ensures linePlot == old(linePlot).(selectedCells := selection)
      ensures wordSequence == old(wordSequence).(backgrounds := WordBackgrounds(selection, sumVec))
      ensures cellList.cells == selection
    {
      controller.wordBrush := brush;
      UpdateCellSelection(true, selection, sumVec);
    }

    /** The word sequence reports a new zero brush: store it, then recompute the selection. */
    method OnZeroBrushSelectionChanged(brush: Option<Range>, selection: seq<int>, sumVec: seq<real>)
      requires Valid()
      modifies controller`wordBrushZero, this`linePlot, this`wordSequence, this`cellList, this`calls
      ensures Valid()
      ensures controller.wordBrushZero == brush
      ensures calls == old(calls) + SelectionCalls(true, controller.wordBrush, brush,
                                                   controller.threshold, selection)
      ensures linePlot == old(linePlot).(selectedCells := selection)
      ensures wordSequence == old(wordSequence).(backgrounds := WordBackgrounds(selection, sumVec))
      ensures cellList.cells == selection
    {
      controller.wordBrushZero := brush;
      UpdateCellSelection(true, selection, sumVec);
    }

    /**
     * The line plot reports a new threshold, already rounded to four
     * decimals: store it, then recompute the selection.
     */
    method OnThresholdChanged(rounded: real, selection: seq<int>, sumVec: seq<real>)
      requires Valid()
      modifies controller`threshold, this`linePlot, this`wordSequence, this`cellList, this`calls
      ensures Valid()
      ensures controller.threshold == rounded
      ensures calls == old(calls) + SelectionCalls(true, controller.wordBrush, controller.wordBrushZero,
                                                   rounded, selection)
      ensures linePlot == old(linePlot).(selectedCells := selection)
      ensures wordSequence == old(wordSequence).(backgrounds := WordBackgrounds(selection, sumVec))
      ensures cellList.cells == selection
    {
      controller.threshold := rounded;
      UpdateCellSelection(true, selection, sumVec);
    }

    // -------------------------------------------------------------------
    // New context
    // -------------------------------------------------------------------

    /**
     * A new context window has been installed in the controller: the line
     * plot gets its time-step count, the indexed cell values and the
     * threshold, the word sequence its words and brushes, and then the
     * cell selection is pushed without forcing a recomputation.
     */
    method OnNewContext(selection: seq<int>, sumVec: seq<real>)
      requires Valid()
      modifies this`linePlot, this`wordSequence, this`cellList, this`calls
      ensures Valid()
      ensures linePlot.timeSteps == controller.states.right - controller.states.left
      ensures |linePlot.cellValues| == |controller.states.data|
      ensures forall i :: 0 <= i < |linePlot.cellValues| ==>
                linePlot.cellValues[i].index == i && linePlot.cellValues[i].values == controller.states.data[i]
      ensures linePlot == old(linePlot).(timeSteps := linePlot.timeSteps, cellValues := linePlot.cellValues,
                                         threshold := controller.threshold, selectedCells := selection)
      ensures wordSequence == old(wordSequence).(words := controller.words, wordBrush := controller.wordBrush,
                                                 wordBrushZero := controller.wordBrushZero,
                                                 backgrounds := WordBackgrounds(selection, sumVec))
      ensures cellList.cells == selection
      ensures calls == old(calls) + SelectionCalls(false, controller.wordBrush, controller.wordBrushZero,
                                                   controller.threshold, selection)
    {
      var states := controller.states;
      var timeSteps := states.right - states.left;
      var cellValues := CellValues(states.data);
      linePlot := linePlot.(timeSteps := timeSteps, cellValues := cellValues);
      linePlot := linePlot.(threshold := controller.threshold);
      wordSequence := wordSequence.(words := controller.words, wordBrush := controller.wordBrush,
                                    wordBrushZero := controller.wordBrushZero);
      UpdateCellSelection(false, selection, sumVec);
    }
  }
}
