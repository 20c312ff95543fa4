# LSTMVis session coordination, modelled in Dafny

LSTMVis shows the hidden-state activations of a recurrent network next to
nearest-neighbour matches from a corpus. The `LSTMVis` application object
(`client/js/apps/LSTMVis.js`) owns no data itself: it reads and writes the
session controller's fields (cell width, context position, word brush, zero
brush, threshold) and pushes view-models to four rendering surfaces: the
line plot, the word sequence, the cell list and the result list (word
matrix). This project models that coordination layer.

- `viewmodels.dfy`, module `ViewModels`: the pure rules. Zoom arithmetic
  (`ZoomOut`, `ZoomIn`, clamped at 5), the brush shift of a pan (`Shift`),
  the index-tagged cell values handed to the line plot (`CellValues`), the
  maximum of a sum vector and the one-colour-per-entry background list
  (`Max`, `Backgrounds`, `WordBackgrounds`), and the `posOffset`/`rowId`
  aliases of a matching-result row (`Tag`, and `TagRows`, which tags an
  array of rows in place).
- `lstmvis.dfy`, module `Apps`: class `Controller` holds the controller
  fields this file touches, apart from the window size; class `LSTMVis` holds the controller, the last
  view-model given to each surface, whether the result panel is shown, and
  a ghost log `calls` of every call it makes into the controller
  (`initByUrlAndRun`, selection, sum, context and match requests), each
  with a snapshot of the controller fields written before that call. Its invariant `Valid()` says that
  every surface draws cells at the controller's width, that the word
  sequence sits at `60 - cellWidth`, and that the result panel is shown
  only over rows that already carry their aliases. Every handler modelled
  here (all but the window-resize handler) is a method that keeps
  `Valid()` and states its whole effect on the modelled surfaces; the
  `modifies` frames list exactly the fields each handler writes.

The controller's own behaviour is not part of this model: the answers of
`cellSelection` and `sumCellValues` reach the handlers as parameters, and
`initByUrlAndRun`, `requestContext` and `requestMatch` appear only as
entries of `calls`. The threshold handler receives the threshold already
rounded.

`updateCellSelection` gives the cell list the selection itself in both
branches; an empty selection is `[]` either way.

## Model

| member | source | states |
|---|---|---|
| ViewModels.ZoomOut | client/js/apps/LSTMVis.js:150-153 | the "smaller" width is never below 5, is exactly 5 less when the old width is at least 10, and is 5 when the old width is at most 10 |
| ViewModels.ZoomIn | client/js/apps/LSTMVis.js:154-157 | the "larger" width is always greater than the old width |
| ViewModels.ZoomInAddsStep | client/js/apps/LSTMVis.js:155 | "larger" adds exactly 5 to any width, including widths below 5 |
| ViewModels.ZoomOutUndoesZoomIn | client/js/apps/LSTMVis.js:150-157 | "larger" then "smaller" restores every width of at least 5 |
| ViewModels.Shift | client/js/apps/LSTMVis.js:182-186 | a pan by `offset` moves a present brush by `-offset` at both ends, keeping its width; an absent brush stays absent |
| ViewModels.ShiftBack | client/js/apps/LSTMVis.js:191-196 | shifting by `offset` and then by `-offset` gives back the brush exactly |
| ViewModels.IndexedFrom | client/js/apps/LSTMVis.js:75-77 | one entry per data row, entry `i` pairing row `i` with index `first + i` |
| ViewModels.CellValues | client/js/apps/LSTMVis.js:72-77 | the cell values have one entry per row of the activations, entry `i` having `index == i` and `values == data[i]` |
| ViewModels.Max | client/js/apps/LSTMVis.js:121 | the domain top of the colour scale is absent exactly for an empty sum vector, and otherwise is an entry that no entry exceeds |
| ViewModels.ShadesFor | client/js/apps/LSTMVis.js:123 | mapping the scale over a vector gives one colour per entry, entry `i` being the scale applied to `vs[i]` |
| ViewModels.Backgrounds | client/js/apps/LSTMVis.js:120-123 | one background per sum-vector entry, each the scale applied to that entry, all from one scale whose top is the largest entry |
| ViewModels.WordBackgrounds | client/js/apps/LSTMVis.js:116-123 | the backgrounds are null exactly when the selection is empty; otherwise there is one colour per sum-vector entry |
| ViewModels.Tag | client/js/apps/LSTMVis.js:98-101 | a tagged row has `posOffset == left` and `rowId == pos`, and keeps `pos`, `left` and the match score |
| ViewModels.TagIdempotent | client/js/apps/LSTMVis.js:98-101 | tagging leaves an already tagged row unchanged, so tagging twice is tagging once |
| ViewModels.TagRows | client/js/apps/LSTMVis.js:97-101 | in place, every row of the array becomes the tagged version of the row that was there; the row count is unchanged |
| Apps.SelectionCalls | client/js/apps/LSTMVis.js:113-120 | a selection pass queries the selection first and asks for the sum vector only, and always, when the selection is non-empty |
| Apps.LSTMVis.constructor | client/js/apps/LSTMVis.js:6-67 | the surfaces start with the controller's cell width, the word sequence at `60 - cellWidth`, and the result panel hidden; the only controller call made is `initByUrlAndRun`, last |
| Apps.LSTMVis.CellWidthUpdate | client/js/apps/LSTMVis.js:131-147 | line plot, word sequence and result list all take the controller's cell width, the word sequence moves to `60 - cellWidth`, nothing else changes |
| Apps.LSTMVis.Smaller | client/js/apps/LSTMVis.js:150-153 | the controller's width becomes `ZoomOut` of the old one and all three surfaces follow it |
| Apps.LSTMVis.Larger | client/js/apps/LSTMVis.js:154-157 | the controller's width grows by 5 and all three surfaces follow it |
| Apps.LSTMVis.MatchRequested | client/js/apps/LSTMVis.js:159-176 | the result panel is hidden and then a match in the given mode is requested over the keys of the project metadata; the surfaces are untouched |
| Apps.LSTMVis.OnMatchingResults | client/js/apps/LSTMVis.js:96-107 | every controller row is tagged in place, the result list receives those rows, and only then is the panel shown, so a shown panel always holds tagged rows |
| Apps.LSTMVis.ModifyPos | client/js/apps/LSTMVis.js:182-189 | `pos` grows by `offset`, the brush shifts by `-offset`, the zero brush is untouched, and the new context is requested with the updated position and brush |
| Apps.LSTMVis.IncPos | client/js/apps/LSTMVis.js:191-193 | the "next" button pans by +5 |
| Apps.LSTMVis.DecPos | client/js/apps/LSTMVis.js:194-196 | the "previous" button pans by -5 |
| Apps.LSTMVis.PanForwardAndBack | client/js/apps/LSTMVis.js:191-196 | a scenario, not a handler: clicking "next" then "previous" restores both the position and the brush exactly, after two context requests |
| Apps.LSTMVis.UpdateCellSelection | client/js/apps/LSTMVis.js:112-128 | the line plot marks the selection; an empty selection clears the word backgrounds (null) and the cell list, a non-empty one asks for the sum vector, colours the words one per entry and lists the selection |
| Apps.LSTMVis.OnBrushSelectionChanged | client/js/apps/LSTMVis.js:204-209 | the new brush is stored before the selection is queried with `recalc = true`, so the query sees it |
| Apps.LSTMVis.OnZeroBrushSelectionChanged | client/js/apps/LSTMVis.js:211-216 | the new zero brush is stored before the selection is queried with `recalc = true` |
| Apps.LSTMVis.OnThresholdChanged | client/js/apps/LSTMVis.js:218-222 | the new threshold is stored before the selection is queried with `recalc = true` |
| Apps.LSTMVis.OnNewContext | client/js/apps/LSTMVis.js:70-93 | the line plot gets `timeSteps == right - left`, the index-tagged cell values and the threshold; the word sequence gets the words and both brushes; then the selection is pushed with `recalc = false` |

## Left out

- Colour interpolation: the d3 linear scale onto white and `#1399e4` is floating-point interpolation inside d3; a colour is modelled as the pair (value, domain top) it is computed from.
- Apps.LSTMVis.OnThresholdChanged: takes the threshold already rounded, because `Util.round` to four decimals is float rounding in a helper that is not part of this model.
- `LSTMController` (its `cellSelection`, `sumCellValues`, `requestContext`, `requestMatch`, `initByUrlAndRun`, default field values and the installation of new contexts and matches) is not part of this model; its answers are parameters and its actions are entries of the `calls` log. `Apps.Controller`'s constructor takes its starting values from the caller and stands for no constructor of the source.
- Each entry of `calls` snapshots the controller fields this object wrote before the call (for `RequestContext`, the position and the brush); which fields the controller actually reads is not part of this model.
- Project metadata: `Apps.Controller.metaKeys` stands for `Object.keys(projectMetadata.meta)`; how the controller loads the metadata is not part of this model.
- Caching behind the `recalc` flag lives in the controller; the model records the flag and the state each query sees, not whether a stale cached selection could come back.
- `LSTMHeatmapHandler` (`init`, `updateMetaOptions`, `updateHeatmapData`) is not part of this model, so the heatmap refreshes in the two data handlers are not represented.
- The window-resize handler (`windowSize.width - 20` for both SVGs), the surfaces' heights and y positions, `reRender` flags and all other DOM and SVG work are rendering plumbing.
- Event dispatch through `SimpleEventHandler` and the asynchronous order of context and match responses are not modelled: each handler is a method the caller invokes.
- Result rows carry only `pos`, `left`, the match score and the two aliases; any other field the backend puts in a row is not modelled, so "every other field is kept" covers only these.
- Rows of the matching results are values in the controller's array, so the object identity of a JavaScript row record (aliasing a row from elsewhere) is not captured.
- Numbers: cell width and positions are unbounded integers; activations and thresholds are exact reals, not IEEE doubles.
