/** The shared drawing model and the views observing it (CanvasModel.java,
    PaintingBoard.java, CanvasView.java). The three classes refer to one another,
    so they live in one module. The model is the program's singleton: one object
    with the static observer list as an ordinary field. */
module Canvas {
  import opened Errors
  import opened Lists
  import opened Strokes

  const NullStartPoint := IllegalArgument("Start point cannot be null.")
  const NullInProgressPoint := IllegalArgument("In-progress point cannot be null.")
  const NullEndPoint := IllegalArgument("End point cannot be null.")
  const NullObserver := IllegalArgument("observer cannot be null.")

  /** `CanvasModel`: the mouse state of the stroke under construction, the fixed
      stroke parameters, and the ordered observer list (duplicates allowed). */
  class CanvasModel {
    var obs: seq<CanvasView>
    var startPoint: Option<Point>
    var currentPoint: Option<Point>
    const strokeColor: Color := Black
    const strokeSize: int := 5
    const transparency: real := 1.0

    /** The boards of the registered views. */
    ghost function Boards(): set<PaintingBoard>
      reads this
    {
      set v | v in obs :: v.board
    }

    /** Every registered view owns its board, so distinct views never share one. */
    ghost predicate Valid()
      reads this, Boards()
    {
      forall v :: v in obs ==> v.board.owner == v
    }

    /** `CanvasModel.INSTANCE`: no points yet and no observers. */
    constructor ()
      ensures Valid()
      ensures obs == [] && startPoint == None && currentPoint == None
    {
      obs := [];
      startPoint := None;
      currentPoint := None;
    }

    /** `setStartPoint(p)`: a mouse press. Rejects null; changes nothing but the
        start point and notifies no observer. */
    method SetStartPoint(p: Option<Point>) returns (r: Outcome)
      requires Valid()
      modifies this`startPoint
      ensures Valid()
      ensures p.None? ==> r == Fail(NullStartPoint) && startPoint == old(startPoint)
      ensures p.Some? ==> r == Pass && startPoint == p
    {
      if p.None? {
        return Fail(NullStartPoint);
      }
      startPoint := p;
      r := Pass;
    }

    /** `setEndPoint(p)`: a mouse release. Rejects null; records the current point
        only, so no stroke is made and the start point stays. */
    method SetEndPoint(p: Option<Point>) returns (r: Outcome)
      requires Valid()
      modifies this`currentPoint
      ensures Valid()
      ensures p.None? ==> r == Fail(NullEndPoint) && currentPoint == old(currentPoint)
      ensures p.Some? ==> r == Pass && currentPoint == p
    {
      if p.None? {
        return Fail(NullEndPoint);
      }
      currentPoint := p;
      r := Pass;
    }

    /** Every registered view's board holds what it held before. */
    twostate predicate BoardsUnchanged()
      reads this, Boards()
    {
      forall v :: v in obs && old(allocated(v)) ==> v.board.strokes == old(v.board.strokes)
    }

    /** What a successful drag to `p` leaves behind: one new stroke from the old
        start point to `p` with the model's colour, size and transparency, appended
        to each registered view's board once per registration, with its shape set
        to its segment as soon as one view has seen it; the start point has moved
        on to `p`. */
    twostate predicate Delivered(p: Point, new stroke: Stroke)
      reads this, Boards(), stroke
    {
      && old(startPoint).Some?
      && fresh(stroke) && stroke.Valid()
      && stroke.startPoint == old(startPoint).value && stroke.endPoint == p
      && stroke.color == strokeColor && stroke.size == strokeSize
      && stroke.transparency == transparency
      && stroke.shape == (if obs == [] then None else Some(Segment(stroke)))
      && (forall v :: v in obs && old(allocated(v)) ==>
            v.board.strokes == old(v.board.strokes) + Repeat(stroke, Count(obs, v)))
      && startPoint == currentPoint == Some(p)
    }

    /** `setInProgressPoint(p)`: a mouse drag. Rejects null; otherwise records `p`
        as the current point and fires a stroke event. Before any press (or after a
        clear) the start point is null and the stroke builder throws, after `p`
        has been recorded and before any observer is reached. */
    method SetInProgressPoint(p: Option<Point>) returns (r: Outcome, ghost stroke: Stroke?)
      requires Valid()
      modifies this`startPoint, this`currentPoint, Boards()`strokes
      ensures Valid() && obs == old(obs)
      ensures p.None? ==>
                && r == Fail(NullInProgressPoint)
                && startPoint == old(startPoint) && currentPoint == old(currentPoint)
                && BoardsUnchanged()
      ensures p.Some? && old(startPoint).None? ==>
                && r == Fail(NullPoint)
                && startPoint == None && currentPoint == p
                && BoardsUnchanged()
      ensures p.Some? && old(startPoint).Some? ==>
                && r == Pass && stroke != null
                && Delivered(p.value, stroke)
    {
      if p.None? {
        return Fail(NullInProgressPoint), null;
      }
      currentPoint := p;
      r, stroke := FireMakeStrokeEvent();
    }

    /** The stroke `fireMakeStrokeEvent()` builds: from the start point to the
        current point with the model's parameters, through the builder chain
        `new Builder(startPoint, currentPoint).color(..).size(..).transparency(..).build()`.
        The builder rejects a null point; the model's own parameters always pass
        the setters' checks. */
    method NewStroke() returns (r: Result<Stroke>)
      ensures startPoint.None? || currentPoint.None? ==> r == Err(NullPoint)
      ensures startPoint.Some? && currentPoint.Some? ==>
                && r.Ok? && fresh(r.value) && r.value.Valid()
                && r.value.startPoint == startPoint.value && r.value.endPoint == currentPoint.value
                && r.value.color == strokeColor && r.value.size == strokeSize
                && r.value.transparency == transparency
                && r.value.shape == None
    {
      var rb := Builder.New(startPoint, currentPoint);
      if rb.Err? {
        return Err(rb.error);
      }
      // each setter returns the builder itself
      var b := rb.value;
      var rc := b.SetColor(Some(strokeColor));
      assert rc == Ok(b);
      var rs := b.SetSize(strokeSize);
      assert rs == Ok(b);
      var rt := b.SetTransparency(transparency);
      assert rt == Ok(b);
      var s := b.Build();
      r := Ok(s);
    }

    /** `fireMakeStrokeEvent()`: builds the stroke from the start point to the
        current point and hands the same stroke to every observer in list order,
        then moves the start point to the current point. */
    method FireMakeStrokeEvent() returns (r: Outcome, ghost stroke: Stroke?)
      requires Valid()
      modifies this`startPoint, Boards()`strokes
      ensures Valid() && obs == old(obs) && currentPoint == old(currentPoint)
      ensures old(startPoint).None? || currentPoint.None? ==>
                && r == Fail(NullPoint)
                && startPoint == old(startPoint)
                && BoardsUnchanged()
      ensures old(startPoint).Some? && currentPoint.Some? ==>
                && r == Pass && stroke != null
                && Delivered(currentPoint.value, stroke)
    {
      var rs := NewStroke();
      if rs.Err? {
        return Fail(rs.error), null;
      }
      var s: Stroke := rs.value;
      var i := 0;
      ghost var done: seq<CanvasView> := [];
      while i < |obs|
        modifies Boards()`strokes, s`shape
        invariant 0 <= i <= |obs| && done == obs[..i]
        invariant forall v :: v in obs ==> v.board.owner == v
        invariant s.shape == (if i == 0 then None else Some(Segment(s)))
        invariant forall v :: v in obs ==>
          v.board.strokes == old(v.board.strokes) + Repeat(s, Count(done, v))
      {
        var w := obs[i];
        label Before:
        w.MakeStroke(s);
        // distinct views own distinct boards, so only w's board has grown
        forall v | v in obs && v != w
          ensures v.board.strokes == old@Before(v.board.strokes)
        {
          assert old@Before(v.board.owner) == v;
        }
        AppendRepeat(old(w.board.strokes), s, Count(done, w));
        forall v | v in obs
          ensures v.board.strokes == old(v.board.strokes) + Repeat(s, Count(done + [w], v))
        {
          CountSnoc(done, w, v);
        }
        assert obs[..i + 1] == done + [w];
        done := done + [w];
        i := i + 1;
      }
      assert done == obs;
      startPoint := currentPoint;
      r, stroke := Pass, s;
    }

    /** `fireClearCanvasEvent()`: forgets both points and clears every observer. */
    method FireClearCanvasEvent()
      requires Valid()
      modifies this`startPoint, this`currentPoint, Boards()`strokes
      ensures Valid() && obs == old(obs)
      ensures startPoint == None && currentPoint == None
      ensures forall v :: v in obs ==> v.board.strokes == []
    {
      startPoint := None;
      currentPoint := None;
      var i := 0;
      while i < |obs|
        modifies Boards()`strokes
        invariant 0 <= i <= |obs|
        invariant forall j :: 0 <= j < i ==> obs[j].board.strokes == []
      {
        obs[i].ClearCanvas();
        i := i + 1;
      }
    }

    /** `addObserver(ob)`: rejects null; otherwise appends, duplicates included,
        and reports true. */
    method AddObserver(ob: CanvasView?) returns (r: Result<bool>)
      requires Valid()
      requires ob != null ==> ob.Valid()
      modifies this`obs
      ensures Valid()
      ensures ob == null ==> r == Err(NullObserver) && obs == old(obs)
      ensures ob != null ==> r == Ok(true) && obs == old(obs) + [ob]
    {
      if ob == null {
        return Err(NullObserver);
      }
      obs := obs + [ob];
      r := Ok(true);
    }

    /** `removeObserver(ob)`: rejects null; otherwise removes the first
        registration of `ob` and reports whether there was one. */
    method RemoveObserver(ob: CanvasView?) returns (r: Result<bool>)
      requires Valid()
      modifies this`obs
      ensures Valid()
      ensures ob == null ==> r == Err(NullObserver) && obs == old(obs)
      ensures ob != null ==> r == Ok(ob in old(obs)) && obs == RemoveFirst(old(obs), ob as CanvasView)
    {
      if ob == null {
        return Err(NullObserver);
      }
      var o: CanvasView := ob;
      var present := o in obs;
      RemoveFirstMultiset(obs, o);
      forall v | v in RemoveFirst(obs, o) ensures v in obs {
        assert v in multiset(RemoveFirst(obs, o));
      }
      obs := RemoveFirst(obs, o);
      r := Ok(present);
    }

    /** `clearObserverList()`: drops every registration. */
    method ClearObserverList()
      modifies this`obs
      ensures Valid()
      ensures obs == []
    {
      obs := [];
    }
  }

  /** `PaintingBoard`: a view's drawing surface, its list of received strokes, and
      the mouse listeners that drive the model. */
  class PaintingBoard {
    const model: CanvasModel
    var strokes: seq<Stroke>
    /** The view this board belongs to; set once, by that view's constructor. */
    ghost var owner: CanvasView?

    /** `new PaintingBoard(m)`: an empty stroke list. */
    constructor (m: CanvasModel)
      ensures model == m && strokes == [] && owner == null
    {
      model := m;
      strokes := [];
      owner := null;
    }

    /** `drawLine(x1, y1, x2, y2)`: the segment between the two points. */
    function DrawLine(x1: int, y1: int, x2: int, y2: int): Shape {
      Line(x1, y1, x2, y2)
    }

    /** `addStroke(st)`: appends and reports true. */
    method AddStroke(st: Stroke) returns (r: bool)
      modifies this`strokes
      ensures strokes == old(strokes) + [st] && r
    {
      strokes := strokes + [st];
      r := true;
    }

    /** `resetBoard()`: forgets every stroke. */
    method ResetBoard()
      modifies this`strokes
      ensures strokes == []
    {
      strokes := [];
    }

    /** `mousePressed` at (x, y): `model.setStartPoint`. */
    method MousePressed(x: int, y: int) returns (r: Outcome)
      requires model.Valid()
      modifies model`startPoint
      ensures model.Valid()
      ensures r == Pass && model.startPoint == Some(Point(x, y))
    {
      r := model.SetStartPoint(Some(Point(x, y)));
    }

    /** `mouseDragged` at (x, y): `model.setInProgressPoint`. */
    method MouseDragged(x: int, y: int) returns (r: Outcome, ghost stroke: Stroke?)
      requires model.Valid()
      modifies model`startPoint, model`currentPoint, model.Boards()`strokes
      ensures model.Valid() && model.obs == old(model.obs)
      ensures old(model.startPoint).None? ==>
                && r == Fail(NullPoint)
                && model.startPoint == None && model.currentPoint == Some(Point(x, y))
                && model.BoardsUnchanged()
      ensures old(model.startPoint).Some? ==>
                && r == Pass && stroke != null
                && model.Delivered(Point(x, y), stroke)
    {
      r, stroke := model.SetInProgressPoint(Some(Point(x, y)));
    }

    /** `mouseReleased` at (x, y): `model.setEndPoint`. */
    method MouseReleased(x: int, y: int) returns (r: Outcome)
      requires model.Valid()
      modifies model`currentPoint
      ensures model.Valid()
      ensures r == Pass && model.currentPoint == Some(Point(x, y))
    {
      r := model.SetEndPoint(Some(Point(x, y)));
    }
  }

  /** `CanvasView`: an observer window holding one painting board. */
  class CanvasView {
    const model: CanvasModel
    const board: PaintingBoard

    /** The view owns its board. */
    ghost predicate Valid()
      reads board
    {
      board.owner == this
    }

    /** `new CanvasView(md)`: registers the new view with the model. The board
        that the window-building step creates is created here directly. */
    constructor (md: CanvasModel)
      requires md.Valid()
      modifies md`obs
      ensures Valid() && md.Valid()
      ensures model == md && fresh(board) && board.model == md && board.strokes == []
      ensures md.obs == old(md.obs) + [this]
    {
      model := md;
      board := new PaintingBoard(md);
      new;
      board.owner := this;
      var added := md.AddObserver(this);
    }

    /** `makeStroke(stroke)`: gives the stroke its segment shape and appends it to
        the board. */
    method MakeStroke(stroke: Stroke)
      modifies board`strokes, stroke`shape
      ensures board.strokes == old(board.strokes) + [stroke]
      ensures stroke.shape == Some(Segment(stroke))
    {
      var x1 := stroke.startPoint.x;
      var y1 := stroke.startPoint.y;
      var x2 := stroke.endPoint.x;
      var y2 := stroke.endPoint.y;
      var shape := board.DrawLine(x1, y1, x2, y2);
      stroke.SetShape(Some(shape));
      var added := board.AddStroke(stroke);
    }

    /** `clearCanvas()`: empties the board. */
    method ClearCanvas()
      modifies board`strokes
      ensures board.strokes == []
    {
      board.ResetBoard();
    }

    /** The clear button's action: `model.fireClearCanvasEvent()`. */
    method ClearButtonPressed()
      requires model.Valid()
      modifies model`startPoint, model`currentPoint, model.Boards()`strokes
      ensures model.Valid() && model.obs == old(model.obs)
      ensures model.startPoint == None && model.currentPoint == None
      ensures forall v :: v in model.obs ==> v.board.strokes == []
    {
      model.FireClearCanvasEvent();
    }
  }
}
