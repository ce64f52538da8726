# Simple Canvas: a verified model of the shared drawing model

Simple Canvas is a small Swing program. It opens three windows onto one shared
canvas, and a line drawn with the mouse in any window appears in all of them.
Three design patterns hold it together:

- `CanvasModel` is a singleton that keeps the drawing session's state: the
  start point and current point of the drag in progress, a fixed colour, size
  and transparency, and an ordered list of observers.
- Every `CanvasView` registers itself with the model as an observer. Each view
  owns a `PaintingBoard`, which holds the list of strokes that view shows.
- A `Stroke` is built through a validating `Stroke.Builder`.

A mouse press records the start point. Each drag builds one straight segment
from the start point to the dragged point and hands that same stroke object to
every observer, in list order. The drag then moves the start point forward, so
successive drags form a connected polyline. A release records the current point
only. The clear button of any window wipes both points and empties every
board.

## Modules

- `Errors` (errors.dfy) holds the program's `IllegalArgumentException`, kept as a value with the program's
  exact message, plus the `Option`, `Outcome` and `Result` types. Methods
  return an `Outcome` or a `Result` instead of throwing.
- `Lists` (lists.dfy) models the `ArrayList` operations the model uses:
  - `add` is sequence append;
  - `remove(Object)` deletes the first occurrence only (`RemoveFirst`);
  - `Count` counts occurrences and `Repeat` builds repeated copies;
  - the lemmas describe `RemoveFirst` completely.
- `Strokes` (stroke.dfy) covers:
  - points, colours and shapes as values;
  - `Builder` as a class whose setters update its fields and return the builder itself;
  - `Stroke` as a class with constant fields and one mutable `shape`.
- `Canvas` (canvas.dfy) holds the three mutually referring classes `CanvasModel`, `PaintingBoard`
  and `CanvasView`.
  - Java's static observer list and the enum singleton become one `CanvasModel` object.
  - Its `obs` field is a `seq<CanvasView>` that the methods reassign.
  - Each board's `strokes` field is a `seq<Stroke>`.
  - The loops over the observers in `fireMakeStrokeEvent` and `fireClearCanvasEvent` are `while` loops with invariants.
  - The frames are written over the set of boards the registered views own.
  - A ghost `owner` field on each board records which view owns it. This proves that distinct views have distinct boards.
- `Scenarios` (scenarios.dfy) contains clients proved from the operations' contracts alone:
  - the application's start-up;
  - a drag session spread over several windows;
  - the four unit tests of the observer list.

Null arguments are `None` for points and colours, and a `null` `CanvasView?` for
observers. The model passes one stroke *object* to every view, and each view
calls `setShape` on it. The model keeps this aliasing: each board receives the
very same `Stroke`. Its shape is set to the stroke's own segment by the first
view and is set again to the same segment by every later view.

The model covers duplicate registrations exactly:

- A view created with `new CanvasView(model)` has already registered itself.
  Adding it again lists it twice, as the unit test does.
- A drag then appends the stroke to that view's board once per registration.
  `Delivered` states this as `old(strokes) + Repeat(stroke, Count(obs, v))`.
- When no view is listed twice, `Scenarios.DragOnce` shows that each board gains
  exactly the one new stroke.

A drag before any press, or after a clear, finds the start point null. The
Java code first records the current point, and then the builder throws
"point cannot be null." before any observer is reached. The model follows that
order.

## Model

| member | source | states |
|---|---|---|
| Strokes.Builder.constructor | src/com/estella/Stroke.java:18-34 | the builder holds the given end points and starts with colour black, size 5 and transparency 1.0, which pass the range checks |
| Strokes.Builder.New | src/com/estella/Stroke.java:28-34 | a null start or end point is rejected with "point cannot be null."; otherwise a fresh builder with those points and the defaults |
| Strokes.Builder.SetColor | src/com/estella/Stroke.java:42-48 | a null colour is rejected with "color cannot be null." and the colour is kept; otherwise the colour is set and the same builder is returned |
| Strokes.Builder.SetSize | src/com/estella/Stroke.java:56-62 | a size at most 0 is rejected with "stroke size must be positive." and the size is kept; otherwise it is set and the same builder is returned |
| Strokes.Builder.SetTransparency | src/com/estella/Stroke.java:70-76 | a transparency outside (0,1] is rejected with its message and kept; otherwise it is set and the same builder is returned |
| Strokes.Builder.Build | src/com/estella/Stroke.java:82-85 | a fresh stroke whose points, colour, size and transparency are exactly the builder's, with size positive and transparency in (0,1], and no shape yet |
| Strokes.Stroke.constructor | src/com/estella/Stroke.java:88-94 | copies the five fields of a valid builder; the shape starts unset |
| Strokes.Stroke.SetShape | src/com/estella/Stroke.java:140-142 | the shape becomes the given one; it is the only field a stroke can change |
| Canvas.CanvasModel.constructor | src/com/estella/CanvasModel.java:8-16 | no observers, no start or current point; colour black, size 5, transparency 1 |
| Canvas.CanvasModel.SetStartPoint | src/com/estella/CanvasModel.java:22-27 | null is rejected with "Start point cannot be null."; otherwise only the start point changes, and no board is touched |
| Canvas.CanvasModel.SetInProgressPoint | src/com/estella/CanvasModel.java:33-39 | null is rejected with nothing changed; with no start point, the current point is recorded and the stroke build fails with no board touched; otherwise one new stroke from the old start point to p, in the model's colour, size and transparency, reaches every registered view once per registration, and start point and current point both become p |
| Canvas.CanvasModel.SetEndPoint | src/com/estella/CanvasModel.java:45-50 | null is rejected with "End point cannot be null."; otherwise only the current point changes, so no stroke is made and the start point is kept |
| Canvas.CanvasModel.NewStroke | src/com/estella/CanvasModel.java:53-54 | the builder chain: fails with "point cannot be null." when either point is unset, otherwise a fresh valid stroke between them in the model's colour, size and transparency |
| Canvas.CanvasModel.FireMakeStrokeEvent | src/com/estella/CanvasModel.java:52-59 | the loop hands the same stroke to each observer in list order; every registered view's board ends with that stroke appended once per registration, other fields unchanged, and the start point moves to the current point |
| Canvas.CanvasModel.FireClearCanvasEvent | src/com/estella/CanvasModel.java:64-70 | both points become unset and every registered view's board is empty; the observer list is kept |
| Canvas.CanvasModel.AddObserver | src/com/estella/CanvasModel.java:77-82 | null is rejected with "observer cannot be null."; otherwise the observer is appended at the end (duplicates allowed) and the answer is true |
| Canvas.CanvasModel.RemoveObserver | src/com/estella/CanvasModel.java:89-94 | null is rejected with the same message; otherwise the first occurrence is removed and the answer is whether the observer was present |
| Canvas.CanvasModel.ClearObserverList | src/com/estella/CanvasModel.java:99-101 | the observer list becomes empty |
| Canvas.PaintingBoard.constructor | src/com/estella/PaintingBoard.java:33-37 | a new board for the model with an empty stroke list |
| Canvas.PaintingBoard.AddStroke | src/com/estella/PaintingBoard.java:104-106 | the stroke is appended after the earlier strokes, in order, and the answer is true |
| Canvas.PaintingBoard.ResetBoard | src/com/estella/PaintingBoard.java:111-114 | the stroke list becomes empty |
| Canvas.PaintingBoard.MousePressed | src/com/estella/PaintingBoard.java:41-43 | a press at (x, y) makes (x, y) the model's start point |
| Canvas.PaintingBoard.MouseDragged | src/com/estella/PaintingBoard.java:51-53 | a drag at (x, y) is the model's in-progress point (x, y), with the same outcomes as SetInProgressPoint |
| Canvas.PaintingBoard.MouseReleased | src/com/estella/PaintingBoard.java:45-47 | a release at (x, y) makes (x, y) the model's current point, nothing else |
| Canvas.CanvasView.constructor | src/com/estella/CanvasView.java:27-35 | the new view is appended to the model's observer list and owns a fresh, empty board on the same model |
| Canvas.CanvasView.MakeStroke | src/com/estella/CanvasView.java:85-94 | the stroke's shape becomes the segment between its own start and end points and the board grows by exactly that stroke at the end |
| Canvas.CanvasView.ClearCanvas | src/com/estella/CanvasView.java:100-102 | the view's board becomes empty |
| Canvas.CanvasView.ClearButtonPressed | src/com/estella/CanvasView.java:72-75 | one window's clear button empties the board of every registered view and unsets both points |
| Lists.CountPositive | src/com/estella/CanvasModel.java:55-57 | a view is counted at least once exactly when it is registered, so a drag reaches a view if and only if it is in the list |
| Lists.RepeatAll | src/com/estella/CanvasModel.java:55-57 | the strokes one drag appends to a board number the view's registrations and are all the same stroke |
| Lists.CountDistinct | src/com/estella/CanvasModel.java:55-57 | in a list without duplicates each registered view is counted exactly once and any other view not at all |
| Lists.IndexOf | src/com/estella/CanvasModel.java:93 | the position found holds the observer being removed |
| Lists.IndexOfFirst | src/com/estella/CanvasModel.java:93 | no earlier position holds it: it is the first occurrence |
| Lists.RemoveFirst | src/com/estella/CanvasModel.java:93 | removal shortens the list by one exactly when the observer was present |
| Lists.RemoveFirstDeletesFirstOccurrence | src/com/estella/CanvasModel.java:93 | removal deletes the first occurrence and keeps everything before and after it, in order |
| Lists.RemoveFirstMultiset | src/com/estella/CanvasModel.java:93 | removal takes away exactly one copy of the observer and nothing else |
| Lists.RemoveFirstAbsent | src/com/estella/CanvasModel.java:93 | removing an absent observer leaves the list unchanged |
| Lists.AppendThenRemove | src/com/estella/CanvasModel.java:77-94 | adding then removing an observer restores the list when it was absent, and otherwise removes its earlier occurrence and keeps the new one at the end |
| Scenarios.StartGame | src/com/estella/CanvasApp.java:14-19 | start-up leaves three distinct views registered in creation order, every board empty and no points set |
| Scenarios.DragOnce | src/com/estella/CanvasModel.java:52-58 | with no view listed twice, a drag fails with nothing drawn when there is no start point, and otherwise gives every registered board exactly the one new stroke |
| Scenarios.DrawAcrossWindows | src/com/estella/CanvasApp.java:8-10 | after a press, two drags and a release in one window, all three windows show the same two strokes and the second starts where the first ends |
| Scenarios.ClearFromAnotherWindow | src/com/estella/CanvasView.java:72-75 | after the third window's clear button, a drag in the second fails for lack of a start point; all three views stay registered, every board is empty, the start point is unset and only the dragged point is recorded |
| Scenarios.AddObserverNotNull | testsrc/com/estella/CanvasModelTest.java:21-24 | adding a new view answers true and leaves it listed twice |
| Scenarios.AddObserverNull | testsrc/com/estella/CanvasModelTest.java:26-30 | adding null is an illegal argument and the list is kept |
| Scenarios.RemoveObserverNotNull | testsrc/com/estella/CanvasModelTest.java:32-37 | removing a view that was added answers true and leaves one of its two registrations |
| Scenarios.RemoveObserverNull | testsrc/com/estella/CanvasModelTest.java:39-43 | removing null is an illegal argument and the list is kept |

## Left out

- The Swing GUI is not modelled: frame building, layout, the exit-confirmation dialog (which unregisters the view) and `System.exit` (src/com/estella/CanvasView.java:30-68). They are toolkit wiring.
- Raster painting is not modelled: `paintComponent` and `clearBoard` (src/com/estella/PaintingBoard.java:57-85) and every `repaint` call are no-ops in the model. `resetBoard` also calls `clearBoard`, which reads the board's off-screen image (src/com/estella/PaintingBoard.java:58). That image exists only after the first `paintComponent`. The model does not capture that a reset before the first paint empties the list and then throws a `NullPointerException`, which would end `fireClearCanvasEvent`'s loop early.
- The `Line2D.Float` casts are not modelled. A shape is the segment's four integer end coordinates, because the program only creates shapes from integer points.
- Transparency is a `real` checked against (0,1]. The program does no float arithmetic on it, so the `float` type is not modelled.
- `java.awt.Point` is an integer pair and `java.awt.Color` an opaque RGB value. Points are only built from and read for their integer coordinates. Colours are only checked for null and handed to painting.
- The board is created in the view's constructor. In the program, `SwingUtilities.invokeLater` creates it later on the GUI thread, so the moment when the board is still null is not modelled.
- `toString` of `Stroke` is left out. It depends on AWT's string formats.
- `CanvasApp.main` and the `CanvasObserver` interface are not modelled separately. The only observer type is `CanvasView`, which stands in for the interface.
- The enum singleton and its static observer list are one `CanvasModel` object. Its constructor stands for the enum's one-time initialisation.
- The getters of `Stroke` (src/com/estella/Stroke.java:100-150) are its constant fields and its `shape` field, read directly.
- `PaintingBoard.drawLine` is the function `DrawLine` and carries no contract of its own. `MakeStroke` states what it contributes.
- `Canvas.CanvasModel.FireClearCanvasEvent` does not state how many times `clearCanvas` is called on a view listed twice. Only the result is stated: the board is empty.
- `Canvas.PaintingBoard.AddStroke` takes a non-null stroke. The program only ever passes a freshly built one.
- `Strokes.Builder.SetTransparency`: transparency is a `real`, so the model does not capture that Java's `float` check `tr <= 0 || tr > 1` (src/com/estella/Stroke.java:71) lets `Float.NaN` through. Both comparisons are false on NaN. Java's builder can therefore build a stroke with a NaN transparency, and the model's invariant "every built stroke has 0 < transparency <= 1" (`Strokes.Stroke.Valid`) holds only for the non-NaN floats the model represents.
- `Canvas.CanvasView.constructor` takes a non-null model. In Java, `new CanvasView(null)` throws a `NullPointerException` at `model.addObserver(this)` (src/com/estella/CanvasView.java:29), and that failure is not modelled.
- `Canvas.CanvasView.MakeStroke` takes a non-null stroke. In Java, `makeStroke(null)` throws a `NullPointerException` on reading its start point (src/com/estella/CanvasView.java:86), and that case is not modelled. The model itself only ever passes a freshly built stroke.
- `Strokes.Builder.SetSize` uses unbounded integers. The size is only compared with 0 and never computed with, so the 32-bit `int` cannot overflow.
- The JUnit fixture's `cleanUp` is `ClearObserverList`. The unit tests are modelled as methods that take the model as a parameter.
