/** The real-time channel shared by the whiteboard and the chat: the payloads
  * they emit and the socket, modelled as the ordered record of what it sent. */
module Channel {
  import opened Wrappers

  /** A canvas coordinate (`offsetX`, `offsetY` of a mouse event). */
  datatype Point = Point(x: int, y: int)

  /** The `drawing` object of a whiteboard update,
    * `{type, from?, to?, color?, width?}`. A field a sender left out is None;
    * `type` is any string, of which "line" and "clear" have a meaning. */
  datatype Drawing = Drawing(
    kind: string,
    from: Option<Point>,
    to: Option<Point>,
    color: Option<string>,
    width: Option<int>)

  /** The line message a local drag emits: every field present. */
  function LineDrawing(from: Point, to: Point, color: string, width: int): Drawing {
    Drawing("line", Some(from), Some(to), Some(color), Some(width))
  }

  /** The message the clear button emits: `{type: 'clear'}`. */
  const ClearDrawing: Drawing := Drawing("clear", None, None, None, None)

  /** What the page emits on the channel. The course id is undefined when the
    * URL path had no `/`. */
  datatype Message =
    | WhiteboardUpdate(courseId: Option<string>, drawing: Drawing)
    | SendMessage(courseId: Option<string>, message: string)

  /** The client end of the channel. Transport, acknowledgement and delivery
    * are outside the model: a socket is the sequence of messages emitted on it. */
  class Socket {
    var sent: seq<Message>

    constructor ()
      ensures sent == []
    {
      sent := [];
    }

    /** `socket.emit(event, payload)`: one more message, after all earlier ones. */
    method Emit(m: Message)
      modifies this
      ensures sent == old(sent) + [m]
    {
      sent := sent + [m];
    }
  }
}
