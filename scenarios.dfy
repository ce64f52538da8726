/** Clients of the drawing model: the application's start-up, an interaction
    across windows, and the unit tests of the observer list. Each one is proved
    from the contracts of the model's operations alone. */
module Scenarios {
  import opened Errors
  import opened Lists
  import opened Strokes
  import opened Canvas

  /** `CanvasApp.startGame()`: the shared model and three views registered with
      it, in creation order, each with an empty board. */
  method StartGame() returns (model: CanvasModel, v1: CanvasView, v2: CanvasView, v3: CanvasView)
    ensures fresh(model) && fresh(v1) && fresh(v2) && fresh(v3)
    ensures fresh(v1.board) && fresh(v2.board) && fresh(v3.board)
    ensures model.Valid() && model.obs == [v1, v2, v3]
    ensures v1 != v2 && v2 != v3 && v1 != v3
    ensures v1.model == model && v2.model == model && v3.model == model
    ensures v1.board.model == model && v2.board.model == model && v3.board.model == model
    ensures v1.board.strokes == [] && v2.board.strokes == [] && v3.board.strokes == []
    ensures model.startPoint == None && model.currentPoint == None
  {
    model := new CanvasModel();
    v1 := new CanvasView(model);
    v2 := new CanvasView(model);
    v3 := new CanvasView(model);
  }

  /** A drag in any window while no view is registered twice: every registered
      view gains that one stroke exactly once, at the end of its board. */
  method DragOnce(board: PaintingBoard, x: int, y: int) returns (r: Outcome, ghost stroke: Stroke?)
    requires board.model.Valid() && Distinct(board.model.obs)
    modifies board.model`startPoint, board.model`currentPoint, board.model.Boards()`strokes
    ensures board.model.Valid() && board.model.obs == old(board.model.obs)
    ensures old(board.model.startPoint).None? ==>
              && r == Fail(NullPoint)
              && forall v :: v in board.model.obs ==> v.board.strokes == old(v.board.strokes)
    ensures old(board.model.startPoint).Some? ==>
              && r == Pass && stroke != null && fresh(stroke)
              && stroke.startPoint == old(board.model.startPoint).value
              && stroke.endPoint == Point(x, y)
              && stroke.shape == (if board.model.obs == [] then None else Some(Segment(stroke)))
              && board.model.startPoint == Some(Point(x, y))
              && forall v :: v in board.model.obs ==> v.board.strokes == old(v.board.strokes) + [stroke]
  {
    r, stroke := board.MouseDragged(x, y);
    if r == Pass {
      forall v | v in board.model.obs
        ensures v.board.strokes == old(v.board.strokes) + [stroke]
      {
        CountDistinct(board.model.obs, v);
        assert Repeat(stroke, 1) == [stroke];
      }
    }
  }

  /** A press, two drags and a release in the first window: every window shows
      the same two strokes, and the second starts where the first ends. */
  method DrawAcrossWindows(x0: int, y0: int, x1: int, y1: int, x2: int, y2: int)
    returns (model: CanvasModel, v1: CanvasView, v2: CanvasView, v3: CanvasView, s1: Stroke, s2: Stroke)
    ensures fresh(model) && model.Valid() && model.obs == [v1, v2, v3]
    ensures fresh(v1.board) && fresh(v2.board) && fresh(v3.board)
    ensures v1.model == model && v2.model == model && v3.model == model
    ensures v1.board.model == model && v2.board.model == model && v3.board.model == model
    ensures v1.board.strokes == [s1, s2] && v2.board.strokes == [s1, s2] && v3.board.strokes == [s1, s2]
    ensures s1.startPoint == Point(x0, y0) && s1.endPoint == Point(x1, y1)
    ensures s2.startPoint == s1.endPoint && s2.endPoint == Point(x2, y2)
    ensures s1.shape == Some(Segment(s1)) && s2.shape == Some(Segment(s2))
    ensures model.startPoint == Some(Point(x2, y2)) && model.currentPoint == Some(Point(x2, y2))
  {
    model, v1, v2, v3 := StartGame();
    var r0 := v1.board.MousePressed(x0, y0);
    assert Distinct([v1, v2, v3]);
    var r1: Outcome;
    ghost var g1: Stroke?;
    r1, g1 := DragOnce(v1.board, x1, y1);
    var r2: Outcome;
    ghost var g2: Stroke?;
    r2, g2 := DragOnce(v1.board, x2, y2);
    s1, s2 := v2.board.strokes[0], v2.board.strokes[1];
    var r3 := v1.board.MouseReleased(x2, y2);
  }

  /** Then the clear button of the third window empties all three boards and
      forgets both points, so a drag straight after it draws nothing. */
  method ClearFromAnotherWindow(x: int, y: int)
    returns (model: CanvasModel, v1: CanvasView, v2: CanvasView, v3: CanvasView, r: Outcome)
    ensures model.Valid() && model.obs == [v1, v2, v3]
    ensures model.startPoint == None && model.currentPoint == Some(Point(x, y))
    ensures v1.board.strokes == [] && v2.board.strokes == [] && v3.board.strokes == []
    ensures r == Fail(NullPoint)
  {
    var s1, s2;
    model, v1, v2, v3, s1, s2 := DrawAcrossWindows(0, 0, 1, 1, 2, 2);
    v3.ClearButtonPressed();
    ghost var g: Stroke?;
    r, g := v2.board.MouseDragged(x, y);
  }

  /** `addObserverTest_NotNull`: registering a new view answers true. The view's
      constructor has registered it already, so it is now listed twice. */
  method AddObserverNotNull(model: CanvasModel) returns (ob: CanvasView, r: Result<bool>)
    requires model.Valid()
    modifies model`obs
    ensures r == Ok(true)
    ensures fresh(ob) && model.Valid() && model.obs == old(model.obs) + [ob, ob]
  {
    ob := new CanvasView(model);
    r := model.AddObserver(ob);
  }

  /** `addObserverTest_Null`: a null observer is refused and the list is kept. */
  method AddObserverNull(model: CanvasModel) returns (r: Result<bool>)
    requires model.Valid()
    modifies model`obs
    ensures r == Err(NullObserver) && model.obs == old(model.obs)
  {
    r := model.AddObserver(null);
  }

  /** `removeObserverTest_NotNull`: removing a registered view answers true and
      drops one of its two registrations. */
  method RemoveObserverNotNull(model: CanvasModel) returns (ob: CanvasView, r: Result<bool>)
    requires model.Valid()
    modifies model`obs
    ensures r == Ok(true)
    ensures fresh(ob) && model.Valid() && model.obs == old(model.obs) + [ob]
  {
    ob := new CanvasView(model);
    var added := model.AddObserver(ob);
    ghost var before := old(model.obs);
    assert ob !in before;
    AppendThenRemove(before + [ob], ob);
    AppendThenRemove(before, ob);
    r := model.RemoveObserver(ob);
  }

  /** `removeObserverTest_Null`: a null observer is refused and the list is kept. */
  method RemoveObserverNull(model: CanvasModel) returns (r: Result<bool>)
    requires model.Valid()
    modifies model`obs
    ensures r == Err(NullObserver) && model.obs == old(model.obs)
  {
    r := model.RemoveObserver(null);
  }
}
