/** The shared whiteboard of a live class (`initWhiteboard` in
  * static/js/live_class.js): a pen driven by mouse events, a canvas that
  * strokes are painted on, and the line and clear messages exchanged with the
  * other participants.
  *
  * The closure's behaviour is first given as a pure transition function,
  * `Handle`, over a `BoardState` value; the lemmas state what the source
  * promises about single events and about event sequences (`Run`), and the
  * class `Whiteboard` holds the closure's variables as fields whose every
  * handler is proved to follow `Handle`. */
module WhiteboardSync {
  import opened Wrappers
  import opened Channel

  /** The 2D context's stroke settings, `strokeStyle` and `lineWidth`. */
  datatype Pen = Pen(color: string, width: int)

  /** A straight stroke painted on the canvas with the pen then in force. */
  datatype Segment = Segment(from: Point, to: Point, pen: Pen)

  /** The drawing flag, the last pointer position, the pen, and the strokes
    * painted since the canvas was last cleared, oldest first. */
  datatype BoardState = BoardState(isDrawing: bool, last: Point, pen: Pen, canvas: seq<Segment>)

  /** What the whiteboard reacts to: its mouse listeners (mouseup and mouseout
    * both call `stopDrawing`), its tool controls, and a drawing received from
    * the channel. */
  datatype Event =
    | Start(at: Point)
    | Move(at: Point)
    | Stop
    | ClearBoard
    | PickColor(color: string)
    | PickSize(size: int)
    | Receive(drawing: Drawing)

  /** The state after an event and the drawings emitted while handling it. */
  datatype Step = Step(after: BoardState, emitted: seq<Drawing>)

  const DefaultColor: string := "#000000"
  const DefaultWidth: int := 2
  /** `lineWidth` of a fresh 2D context. */
  const InitialLineWidth: int := 1

  /** Assigning `lineWidth`: the canvas ignores zero and negative values. */
  function AssignLineWidth(current: int, requested: int): int {
    if requested > 0 then requested else current
  }

  /** `drawing.color || '#000000'`: an absent or empty colour is falsy. */
  function ColorOrDefault(color: Option<string>): string {
    if color.Some? && color.value != "" then color.value else DefaultColor
  }

  /** `drawing.width || 2`: an absent width or a width of 0 is falsy. */
  function WidthOrDefault(width: Option<int>): int {
    if width.Some? && width.value != 0 then width.value else DefaultWidth
  }

  /** `updateWhiteboard(drawing)`. A line without `from` or `to` fails on the
    * property read before anything is painted or any setting changes. */
  function ApplyDrawing(b: BoardState, d: Drawing): (a: BoardState)
    ensures a.isDrawing == b.isDrawing && a.last == b.last
    ensures d.kind != "line" ==> a.pen == b.pen
    ensures d.kind == "clear" ==> a.canvas == []
    ensures d.kind != "clear" ==>
      |b.canvas| <= |a.canvas| <= |b.canvas| + 1 && a.canvas[..|b.canvas|] == b.canvas
  {
    if d.kind == "line" then
      if d.from.None? || d.to.None? then b
      else
        var pen := Pen(ColorOrDefault(d.color), AssignLineWidth(b.pen.width, WidthOrDefault(d.width)));
        b.(pen := pen, canvas := b.canvas + [Segment(d.from.value, d.to.value, pen)])
    else if d.kind == "clear" then b.(canvas := [])
    else b
  }

  /** One event, as the whiteboard's handlers process it. */
  function Handle(b: BoardState, e: Event): (s: Step)
    ensures |s.emitted| <= 1
    ensures s.emitted != [] <==> (e.Move? && b.isDrawing) || e.ClearBoard?
    ensures s.after.isDrawing != b.isDrawing ==> e.Start? || e.Stop?
    ensures s.after.pen != b.pen ==> e.PickColor? || e.PickSize? || e.Receive?
  {
    match e
    case Start(p) => Step(b.(isDrawing := true, last := p), [])
    case Move(p) =>
      if !b.isDrawing then Step(b, [])
      else Step(b.(last := p, canvas := b.canvas + [Segment(b.last, p, b.pen)]),
                [LineDrawing(b.last, p, b.pen.color, b.pen.width)])
    case Stop => Step(b.(isDrawing := false), [])
    case ClearBoard => Step(b.(canvas := []), [ClearDrawing])
    case PickColor(c) => Step(b.(pen := b.pen.(color := c)), [])
    case PickSize(w) => Step(b.(pen := b.pen.(width := AssignLineWidth(b.pen.width, w))), [])
    case Receive(d) => Step(ApplyDrawing(b, d), [])
  }

  /** A sequence of events handled in order; the emitted drawings in order. */
  function Run(b: BoardState, evs: seq<Event>): Step
    decreases |evs|
  {
    if evs == [] then Step(b, [])
    else
      var s := Handle(b, evs[0]);
      var r := Run(s.after, evs[1..]);
      Step(r.after, s.emitted + r.emitted)
  }

  // ---------------------------------------------------------------- single events

  /** Outside drawing mode a mouse move paints nothing and emits nothing. */
  lemma MoveWhileIdleIsNoop(b: BoardState, p: Point)
    requires !b.isDrawing
    ensures Handle(b, Move(p)) == Step(b, [])
  {
  }

  /** In drawing mode a move paints one segment from the previous point to the
    * new one with the pen in force, emits exactly one line message describing
    * that same segment, and leaves the new point as the last one. */
  lemma MoveEmitsOneSegment(b: BoardState, p: Point)
    requires b.isDrawing
    ensures var s := Handle(b, Move(p));
      && |s.emitted| == 1
      && s.emitted[0].kind == "line"
      && s.emitted[0].from == Some(b.last) && s.emitted[0].to == Some(p)
      && s.emitted[0].color == Some(b.pen.color) && s.emitted[0].width == Some(b.pen.width)
      && s.after.canvas == b.canvas + [Segment(b.last, p, b.pen)]
      && s.after.last == p && s.after.isDrawing && s.after.pen == b.pen
  {
  }

  /** `stopDrawing` clears the drawing flag and changes nothing else. */
  lemma StopOnlyEndsDrawing(b: BoardState)
    ensures Handle(b, Stop) == Step(b.(isDrawing := false), [])
  {
  }

  /** The clear button empties the local canvas, emits exactly one
    * `{type: 'clear'}`, and keeps the pen and the pointer state. */
  lemma ClearEmitsOneClear(b: BoardState)
    ensures var s := Handle(b, ClearBoard);
      s.after.canvas == [] && s.emitted == [ClearDrawing]
      && s.after.isDrawing == b.isDrawing && s.after.last == b.last && s.after.pen == b.pen
  {
  }

  /** A received line with both end points appends exactly one segment, drawn
    * with the message's colour (black when falsy) and width (2 when falsy,
    * kept at the current width when not positive), and leaves the pen set to
    * what it used; nothing else changes. */
  lemma ReceivedLineAppendsOne(b: BoardState, d: Drawing)
    requires d.kind == "line" && d.from.Some? && d.to.Some?
    ensures var s := Handle(b, Receive(d));
      && |s.after.canvas| == |b.canvas| + 1
      && s.after.canvas[..|b.canvas|] == b.canvas
      && s.after.canvas[|b.canvas|] == Segment(d.from.value, d.to.value, s.after.pen)
      && s.after.pen.color == (if d.color == None || d.color == Some("") then "#000000" else d.color.value)
      && (d.width == None || d.width == Some(0) ==> s.after.pen.width == 2)
      && (d.width.Some? && d.width.value > 0 ==> s.after.pen.width == d.width.value)
      && (d.width.Some? && d.width.value < 0 ==> s.after.pen.width == b.pen.width)
      && s.after.isDrawing == b.isDrawing && s.after.last == b.last
      && s.emitted == []
  {
    var s := Handle(b, Receive(d));
    assert s.after.canvas[..|b.canvas|] == b.canvas;
  }

  /** A received clear empties the canvas; a drawing of any other type, or a
    * line missing an end point, changes nothing. Receiving never emits. */
  lemma ReceivedOtherDrawings(b: BoardState, d: Drawing)
    ensures d.kind == "clear" ==> Handle(b, Receive(d)) == Step(b.(canvas := []), [])
    ensures d.kind != "line" && d.kind != "clear" ==> Handle(b, Receive(d)) == Step(b, [])
    ensures d.kind == "line" && (d.from.None? || d.to.None?) ==> Handle(b, Receive(d)) == Step(b, [])
  {
  }

  // ---------------------------------------------------------------- event sequences

  /** Handling `xs + ys` is handling `xs`, then `ys` from where `xs` left off. */
  lemma {:induction false} RunAppend(b: BoardState, xs: seq<Event>, ys: seq<Event>)
    ensures var r1 := Run(b, xs);
      var r2 := Run(r1.after, ys);
      Run(b, xs + ys) == Step(r2.after, r1.emitted + r2.emitted)
    decreases |xs|
  {
    if xs == [] {
      assert xs + ys == ys;
    } else {
      assert (xs + ys)[0] == xs[0];
      assert (xs + ys)[1..] == xs[1..] + ys;
      var s := Handle(b, xs[0]);
      var r1 := Run(s.after, xs[1..]);
      var r2 := Run(r1.after, ys);
      RunAppend(s.after, xs[1..], ys);
      assert s.emitted + (r1.emitted + r2.emitted) == s.emitted + r1.emitted + r2.emitted;
    }
  }

  /** The line messages in `ds` form a chain from `start`: the first line
    * starts at `start` and every later one where the previous one ended.
    * Messages that are not lines do not break the chain. */
  predicate Chained(start: Point, ds: seq<Drawing>)
    decreases |ds|
  {
    ds == [] ||
    if ds[0].kind == "line" then
      ds[0].from == Some(start) && ds[0].to.Some? && Chained(ds[0].to.value, ds[1..])
    else
      Chained(start, ds[1..])
  }

  /** Neither a mousedown nor a mouseup/mouseout: the events of one drag. */
  predicate WithinDrag(evs: seq<Event>) {
    forall i :: 0 <= i < |evs| ==> !evs[i].Start? && !evs[i].Stop?
  }

  /** The last mouse-move point in `evs`, or `p` when there is none. */
  function LastMoveOr(p: Point, evs: seq<Event>): Point
    decreases |evs|
  {
    if evs == [] then p
    else LastMoveOr(if evs[0].Move? then evs[0].at else p, evs[1..])
  }

  lemma {:induction false} ChainedWhileDrawing(b: BoardState, evs: seq<Event>)
    requires b.isDrawing && WithinDrag(evs)
    ensures var r := Run(b, evs);
      Chained(b.last, r.emitted) && r.after.isDrawing && r.after.last == LastMoveOr(b.last, evs)
    decreases |evs|
  {
    if evs != [] {
      var s := Handle(b, evs[0]);
      var r := Run(s.after, evs[1..]);
      assert WithinDrag(evs[1..]) by {
        forall i | 0 <= i < |evs[1..]| ensures !evs[1..][i].Start? && !evs[1..][i].Stop? {
          assert evs[1..][i] == evs[i + 1];
        }
      }
      assert !evs[0].Start? && !evs[0].Stop?;
      ChainedWhileDrawing(s.after, evs[1..]);
      if s.emitted != [] {
        assert (s.emitted + r.emitted)[0] == s.emitted[0];
        assert (s.emitted + r.emitted)[1..] == r.emitted;
      } else {
        assert s.emitted + r.emitted == r.emitted;
      }
    }
  }

  /** One drag, from a mousedown at `p` through moves, tool changes, clears and
    * received drawings, with no mouseup or mouseout: the emitted segments form
    * a chain that starts at the mousedown point, and afterwards the pen is
    * still down at the last move point. */
  lemma DragIsChained(b: BoardState, p: Point, evs: seq<Event>)
    requires WithinDrag(evs)
    ensures var r := Run(b, [Start(p)] + evs);
      Chained(p, r.emitted) && r.after.isDrawing && r.after.last == LastMoveOr(p, evs)
  {
    var down := b.(isDrawing := true, last := p);
    assert ([Start(p)] + evs)[0] == Start(p);
    assert ([Start(p)] + evs)[1..] == evs;
    var r := Run(down, evs);
    assert Run(b, [Start(p)] + evs) == Step(r.after, [] + r.emitted);
    assert [] + r.emitted == r.emitted;
    ChainedWhileDrawing(down, evs);
  }

  /** Events that wipe the canvas: the clear button or a received clear. */
  predicate Clears(e: Event) {
    e.ClearBoard? || (e.Receive? && e.drawing.kind == "clear")
  }

  predicate ClearFree(evs: seq<Event>) {
    forall i :: 0 <= i < |evs| ==> !Clears(evs[i])
  }

  /** Without a clear, the canvas only grows, and what it gains does not
    * depend on what was painted before: it is what the same events paint on
    * a blank canvas. Emitted messages and the rest of the state do not depend
    * on the canvas either. */
  lemma {:induction false} CanvasOnlyGrows(b: BoardState, evs: seq<Event>)
    requires ClearFree(evs)
    ensures var r := Run(b, evs);
      var blank := Run(b.(canvas := []), evs);
      r == Step(blank.after.(canvas := b.canvas + blank.after.canvas), blank.emitted)
    decreases |evs|
  {
    if evs != [] {
      ClearFreeTail(evs);
      var s := Handle(b, evs[0]);
      var s0 := Handle(b.(canvas := []), evs[0]);
      HandleIgnoresCanvas(b, evs[0]);
      CanvasOnlyGrows(s.after, evs[1..]);
      CanvasOnlyGrows(s0.after, evs[1..]);
      assert s.after.(canvas := []) == s0.after.(canvas := []);
      GrowStep(b.canvas, s, s0, Run(s.after, evs[1..]), Run(s0.after, evs[1..]),
               Run(s0.after.(canvas := []), evs[1..]));
    }
  }

  /** The inductive step of CanvasOnlyGrows, over the steps involved: `s`
    * and `s0` handle the first event with and without the prior canvas `bc`,
    * `r` and `r0` handle the rest after them, and `rest` on a blank canvas. */
  lemma GrowStep(bc: seq<Segment>, s: Step, s0: Step, r: Step, r0: Step, rest: Step)
    requires s == Step(s0.after.(canvas := bc + s0.after.canvas), s0.emitted)
    requires r == Step(rest.after.(canvas := s.after.canvas + rest.after.canvas), rest.emitted)
    requires r0 == Step(rest.after.(canvas := s0.after.canvas + rest.after.canvas), rest.emitted)
    ensures Step(r.after, s.emitted + r.emitted)
         == Step(r0.after.(canvas := bc + r0.after.canvas), s0.emitted + r0.emitted)
  {
    assert bc + s0.after.canvas + rest.after.canvas == bc + (s0.after.canvas + rest.after.canvas);
  }

  /** One event other than a clear appends to the canvas what it would paint
    * on a blank one, and emits the same. */
  lemma HandleIgnoresCanvas(b: BoardState, e: Event)
    requires !Clears(e)
    ensures var s0 := Handle(b.(canvas := []), e);
      Handle(b, e) == Step(s0.after.(canvas := b.canvas + s0.after.canvas), s0.emitted)
  {
    match e
    case Move(p) =>
      assert b.(canvas := []).canvas + [Segment(b.last, p, b.pen)] == [Segment(b.last, p, b.pen)];
    case Receive(d) =>
      var s0 := Handle(b.(canvas := []), e);
      assert [] + [Segment(d.from.GetOr(b.last), d.to.GetOr(b.last), s0.after.pen)]
          == [Segment(d.from.GetOr(b.last), d.to.GetOr(b.last), s0.after.pen)];
    case _ =>
  }

  /** A clear-free sequence starts with a non-clear and continues clear-free. */
  lemma ClearFreeTail(evs: seq<Event>)
    requires ClearFree(evs) && evs != []
    ensures !Clears(evs[0]) && ClearFree(evs[1..])
  {
    forall i | 0 <= i < |evs[1..]| ensures !Clears(evs[1..][i]) {
      assert evs[1..][i] == evs[i + 1];
    }
  }

  /** Whatever was painted before a clear is gone: after `pre + [c] + post`,
    * with `c` a local or received clear, the canvas is exactly what `post`
    * leaves when started on a blank canvas in the state `pre` left. */
  lemma CanvasIsWhatFollowsLastClear(b: BoardState, pre: seq<Event>, c: Event, post: seq<Event>)
    requires Clears(c)
    ensures var mid := Run(b, pre).after.(canvas := []);
      Run(b, pre + [c] + post).after.canvas == Run(mid, post).after.canvas
  {
    var mid := Run(b, pre).after;
    RunAppend(b, pre, [c]);
    assert Run(mid, [c]).after == mid.(canvas := []);
    RunAppend(b, pre + [c], post);
  }

  // ---------------------------------------------------------------- convergence

  /** A pen whose settings survive the trip through a line message: a
    * non-empty colour and a positive width. */
  predicate PenTransmits(pen: Pen) {
    pen.color != "" && pen.width > 0
  }

  /** Events that originate on this page, with colours the picker can produce. */
  predicate LocalOnly(evs: seq<Event>) {
    forall i :: 0 <= i < |evs| ==> !evs[i].Receive? && (evs[i].PickColor? ==> evs[i].color != "")
  }

  /** The drawings, each received from the channel. */
  function Received(ds: seq<Drawing>): (evs: seq<Event>)
    ensures |evs| == |ds|
  {
    seq(|ds|, i requires 0 <= i < |ds| => Receive(ds[i]))
  }

  /** A received line with both end points. */
  predicate CompleteLine(d: Drawing) {
    d.kind == "line" && d.from.Some? && d.to.Some?
  }

  /** Received complete lines are painted after what the canvas held, one
    * segment each, in the order they arrive, from and to where they say. */
  lemma {:induction false} ReceivedLinesPaintInOrder(b: BoardState, ds: seq<Drawing>)
    requires forall i :: 0 <= i < |ds| ==> CompleteLine(ds[i])
    ensures var c := Run(b, Received(ds)).after.canvas;
      && |c| == |b.canvas| + |ds|
      && c[..|b.canvas|] == b.canvas
      && forall i :: 0 <= i < |ds| ==>
           ds[i].from == Some(c[|b.canvas| + i].from) && ds[i].to == Some(c[|b.canvas| + i].to)
    decreases |ds|
  {
    if ds != [] {
      var a := Handle(b, Receive(ds[0])).after;
      RunReceivedFirst(b, ds);
      ReceiveOneLine(b, ds[0]);
      ReceivedLinesPaintInOrder(a, ds[1..]);
      var c := Run(a, Received(ds[1..])).after.canvas;
      assert c[..|b.canvas|] == c[..|a.canvas|][..|b.canvas|];
      forall i | 0 <= i < |ds|
        ensures ds[i].from == Some(c[|b.canvas| + i].from) && ds[i].to == Some(c[|b.canvas| + i].to)
      {
        if i == 0 {
          assert c[|b.canvas|] == c[..|a.canvas|][|b.canvas|];
        } else {
          assert ds[1..][i - 1] == ds[i];
        }
      }
    }
  }

  /** Receiving a batch is receiving its first drawing, then the rest. */
  lemma RunReceivedFirst(b: BoardState, ds: seq<Drawing>)
    requires ds != []
    ensures Run(b, Received(ds)).after == Run(Handle(b, Receive(ds[0])).after, Received(ds[1..])).after
  {
    var evs := Received(ds);
    assert evs[0] == Receive(ds[0]);
    assert evs[1..] == Received(ds[1..]);
  }

  /** A received complete line appends one segment between its end points. */
  lemma ReceiveOneLine(b: BoardState, d: Drawing)
    requires CompleteLine(d)
    ensures var c := Handle(b, Receive(d)).after.canvas;
      && |c| == |b.canvas| + 1 && c[..|b.canvas|] == b.canvas
      && d.from == Some(c[|b.canvas|].from) && d.to == Some(c[|b.canvas|].to)
  {
  }

  /** A peer that starts from the same canvas and receives everything this
    * page emits, in order, ends with the same canvas as this page: the line
    * and clear messages carry all the local painting. */
  lemma {:induction false} PeersConverge(b: BoardState, peer: BoardState, evs: seq<Event>)
    requires LocalOnly(evs) && PenTransmits(b.pen) && peer.canvas == b.canvas
    ensures Run(peer, Received(Run(b, evs).emitted)).after.canvas == Run(b, evs).after.canvas
    decreases |evs|
  {
    if evs != [] {
      LocalOnlyTail(evs);
      var s := Handle(b, evs[0]);
      var r := Run(s.after, evs[1..]);
      var head := Run(peer, Received(s.emitted));
      PeerFollowsOneEvent(b, peer, evs[0]);
      PeersConverge(s.after, head.after, evs[1..]);
      ReceivedAppend(s.emitted, r.emitted);
      RunAppend(peer, Received(s.emitted), Received(r.emitted));
    }
  }

  /** A peer receiving what one local event emits paints the same as the
    * page, and the page's pen still transmits. */
  lemma PeerFollowsOneEvent(b: BoardState, peer: BoardState, e: Event)
    requires !e.Receive? && (e.PickColor? ==> e.color != "")
    requires PenTransmits(b.pen) && peer.canvas == b.canvas
    ensures var s := Handle(b, e);
      Run(peer, Received(s.emitted)).after.canvas == s.after.canvas && PenTransmits(s.after.pen)
  {
    var s := Handle(b, e);
    if s.emitted == [] {
      assert Received(s.emitted) == [];
    } else {
      var d := s.emitted[0];
      assert Received(s.emitted) == [Receive(d)];
      var applied := ApplyDrawing(peer, d);
      assert [Receive(d)][0] == Receive(d) && [Receive(d)][1..] == [];
      assert Run(applied, []) == Step(applied, []);
    }
  }

  /** A local-only sequence starts with a local event and continues local-only. */
  lemma LocalOnlyTail(evs: seq<Event>)
    requires LocalOnly(evs) && evs != []
    ensures !evs[0].Receive? && (evs[0].PickColor? ==> evs[0].color != "") && LocalOnly(evs[1..])
  {
    forall i | 0 <= i < |evs[1..]|
      ensures !evs[1..][i].Receive? && (evs[1..][i].PickColor? ==> evs[1..][i].color != "")
    {
      assert evs[1..][i] == evs[i + 1];
    }
  }

  /** Receiving two batches is receiving their concatenation. */
  lemma ReceivedAppend(xs: seq<Drawing>, ys: seq<Drawing>)
    ensures Received(xs + ys) == Received(xs) + Received(ys)
  {
  }

  // ---------------------------------------------------------------- the closure

  /** The messages a whiteboard emits: each drawing wrapped with the course id. */
  function Updates(courseId: Option<string>, ds: seq<Drawing>): (ms: seq<Message>)
    ensures |ms| == |ds|
    ensures forall i :: 0 <= i < |ds| ==> ms[i] == WhiteboardUpdate(courseId, ds[i])
  {
    seq(|ds|, i requires 0 <= i < |ds| => WhiteboardUpdate(courseId, ds[i]))
  }

  /** `initWhiteboard`'s closure: its variables become fields, its inner
    * functions and listeners methods. */
  class Whiteboard {
    const courseId: Option<string>
    const socket: Socket
    var isDrawing: bool
    var lastX: int
    var lastY: int
    var strokeStyle: string
    var lineWidth: int
    var canvas: seq<Segment>

    function State(): BoardState
      reads this
    {
      BoardState(isDrawing, Point(lastX, lastY), Pen(strokeStyle, lineWidth), canvas)
    }

    /** `initWhiteboard(socket, courseId)` on a blank canvas, with the colour
      * picker's and the brush-size control's current values. */
    constructor (socket: Socket, courseId: Option<string>, pickerColor: string, brushSize: int)
      ensures this.socket == socket && this.courseId == courseId
      ensures State() == BoardState(false, Point(0, 0), Pen(pickerColor, AssignLineWidth(InitialLineWidth, brushSize)), [])
    {
      this.socket := socket;
      this.courseId := courseId;
      isDrawing := false;
      lastX, lastY := 0, 0;
      strokeStyle := pickerColor;
      lineWidth := AssignLineWidth(InitialLineWidth, brushSize);
      canvas := [];
    }

    /** `startDrawing(e)`, on mousedown. */
    method StartDrawing(offsetX: int, offsetY: int)
      modifies this
      ensures State() == Handle(old(State()), Start(Point(offsetX, offsetY))).after
    {
      isDrawing := true;
      lastX, lastY := offsetX, offsetY;
    }

    /** `draw(e)`, on mousemove. */
    method Draw(offsetX: int, offsetY: int)
      modifies this, socket
      ensures var s := Handle(old(State()), Move(Point(offsetX, offsetY)));
        State() == s.after && socket.sent == old(socket.sent) + Updates(courseId, s.emitted)
    {
      if !isDrawing {
        return;
      }
      var from, to := Point(lastX, lastY), Point(offsetX, offsetY);
      canvas := canvas + [Segment(from, to, Pen(strokeStyle, lineWidth))];
      socket.Emit(WhiteboardUpdate(courseId, LineDrawing(from, to, strokeStyle, lineWidth)));
      lastX, lastY := offsetX, offsetY;
    }

    /** `stopDrawing()`, on mouseup and mouseout. */
    method StopDrawing()
      modifies this
      ensures State() == Handle(old(State()), Stop).after
    {
      isDrawing := false;
    }

    /** The clear button's click listener. */
    method ClearWhiteboard()
      modifies this, socket
      ensures var s := Handle(old(State()), ClearBoard);
        State() == s.after && socket.sent == old(socket.sent) + Updates(courseId, s.emitted)
    {
      canvas := [];
      socket.Emit(WhiteboardUpdate(courseId, ClearDrawing));
    }

    /** The colour picker's change listener. */
    method ChangeColor(value: string)
      modifies this
      ensures State() == Handle(old(State()), PickColor(value)).after
    {
      strokeStyle := value;
    }

    /** The brush-size control's input listener. */
    method ChangeBrushSize(value: int)
      modifies this
      ensures State() == Handle(old(State()), PickSize(value)).after
    {
      lineWidth := AssignLineWidth(lineWidth, value);
    }

    /** `updateWhiteboard(drawing, user)`; `user` is not used. */
    method UpdateWhiteboard(drawing: Drawing)
      modifies this
      ensures State() == Handle(old(State()), Receive(drawing)).after
    {
      if drawing.kind == "line" {
        if drawing.from.None? || drawing.to.None? {
          return;
        }
        strokeStyle := ColorOrDefault(drawing.color);
        lineWidth := AssignLineWidth(lineWidth, WidthOrDefault(drawing.width));
        canvas := canvas + [Segment(drawing.from.value, drawing.to.value, Pen(strokeStyle, lineWidth))];
      } else if drawing.kind == "clear" {
        canvas := [];
      }
    }
  }
}
